/** The optional values used throughout the project. */
module Options {
  datatype Option<+T> = None | Some(value: T)
}

/**
 The fenced lease every lock backend implements: at most one hold, which lapses by
 itself, and the highest fencing token minted so far.
 */
module Leases {
  import opened Options

  type Token = string
  type Name = string

  datatype Hold = Hold(token: Token, expireAt: real)
  datatype Lease = Lease(hold: Option<Hold>, fence: nat)

  const FREE := Lease(None, 0)

  /** Whether the expiry instant itself still counts as held. */
  datatype Boundary = Closed | Open

  predicate Live(b: Boundary, h: Hold, now: real) {
    if b.Closed? then now <= h.expireAt else now < h.expireAt
  }

  predicate Held(b: Boundary, l: Lease, now: real) {
    l.hold.Some? && Live(b, l.hold.value, now)
  }

  predicate HeldBy(b: Boundary, l: Lease, token: Token, now: real) {
    Held(b, l, now) && l.hold.value.token == token
  }

  /** Acquire or extend until `until`; the second component is the fencing token. */
  function Acquire(b: Boundary, l: Lease, token: Token, until: real, now: real): (Lease, Option<nat>) {
    if HeldBy(b, l, token, now) then (l.(hold := Some(Hold(token, until))), Some(l.fence))
    else if Held(b, l, now) then (l, None)
    else (Lease(Some(Hold(token, until)), l.fence + 1), Some(l.fence + 1))
  }

  function Release(b: Boundary, l: Lease, token: Token, now: real): (Lease, bool) {
    if HeldBy(b, l, token, now) then (l.(hold := None), true) else (l, false)
  }

  /** Two leases nobody can tell apart from `now` on: they differ at most in a lapsed hold. */
  predicate Same(b: Boundary, l: Lease, m: Lease, now: real) {
    && l.fence == m.fence
    && Held(b, l, now) == Held(b, m, now)
    && (Held(b, l, now) ==> l.hold == m.hold)
  }

  /** `Same` is a congruence: acquiring and releasing later cannot separate two such leases. */
  lemma SameIsPreserved(b: Boundary, l: Lease, m: Lease, token: Token, until: real, t0: real, t1: real)
    requires Same(b, l, m, t0) && t0 <= t1
    ensures Same(b, l, m, t1)
    ensures Acquire(b, l, token, until, t1).1 == Acquire(b, m, token, until, t1).1
    ensures Same(b, Acquire(b, l, token, until, t1).0, Acquire(b, m, token, until, t1).0, t1)
    ensures Release(b, l, token, t1).1 == Release(b, m, token, t1).1
    ensures Same(b, Release(b, l, token, t1).0, Release(b, m, token, t1).0, t1)
  {
  }

  // ---- Whole runs over any number of names and tokens ----

  type Book = map<Name, Lease>

  function At(book: Book, n: Name): Lease {
    if n in book then book[n] else FREE
  }

  datatype Event =
    | AcquireEv(name: Name, token: Token, until: real, now: real)
    | ReleaseEv(name: Name, token: Token, now: real)

  function Step(b: Boundary, book: Book, e: Event): Book {
    match e
    case AcquireEv(n, t, until, now) => book[n := Acquire(b, At(book, n), t, until, now).0]
    case ReleaseEv(n, t, now) => book[n := Release(b, At(book, n), t, now).0]
  }

  /** The book just before event `k`. */
  function Before(b: Boundary, book: Book, run: seq<Event>, k: nat): Book
    requires k <= |run|
  {
    if k == 0 then book else Step(b, Before(b, book, run, k - 1), run[k - 1])
  }

  /** The fencing token that event `k` hands out, if it hands one out. */
  function Grant(b: Boundary, book: Book, run: seq<Event>, k: nat): Option<nat>
    requires k < |run|
  {
    match run[k]
    case AcquireEv(n, t, until, now) => Acquire(b, At(Before(b, book, run, k), n), t, until, now).1
    case ReleaseEv(_, _, _) => None
  }

  /** Event `k` is a release that takes effect. */
  predicate Vacates(b: Boundary, book: Book, run: seq<Event>, k: nat)
    requires k < |run|
  {
    && run[k].ReleaseEv?
    && Release(b, At(Before(b, book, run, k), run[k].name), run[k].token, run[k].now).1
  }

  /** What every later state remembers of grant `i`. */
  ghost predicate Remembers(l: Lease, fence: nat, token: Token) {
    && fence <= l.fence
    && (l.hold.Some? && l.fence == fence ==> l.hold.value.token == token)
  }

  lemma {:induction false} GrantIsRemembered(b: Boundary, book: Book, run: seq<Event>, i: nat, k: nat)
    requires i < k <= |run| && Grant(b, book, run, i).Some?
    ensures Remembers(At(Before(b, book, run, k), run[i].name), Grant(b, book, run, i).value, run[i].token)
    decreases k
  {
    if i + 1 < k {
      GrantIsRemembered(b, book, run, i, k - 1);
    }
  }

  lemma {:induction false} VacancyIsRemembered(b: Boundary, book: Book, run: seq<Event>, i: nat, m: nat, k: nat)
    requires i < m < k <= |run| && Grant(b, book, run, i).Some?
    requires Vacates(b, book, run, m) && run[m].name == run[i].name
    ensures var l := At(Before(b, book, run, k), run[i].name);
            Grant(b, book, run, i).value <= l.fence && (l.hold.Some? ==> Grant(b, book, run, i).value < l.fence)
    decreases k
  {
    if m + 1 < k {
      VacancyIsRemembered(b, book, run, i, m, k - 1);
    } else {
      GrantIsRemembered(b, book, run, i, m);
    }
  }

  /**
   Fencing over whole runs: for any two grants of one name, in any run of acquires, extends and
   releases by any tokens from any starting book, the later fence is no smaller, and strictly
   larger when the token differs or when the lock was released in between.
   */
  lemma FencesClimb(b: Boundary, book: Book, run: seq<Event>, i: nat, j: nat)
    requires i < j < |run| && run[i].name == run[j].name
    requires Grant(b, book, run, i).Some? && Grant(b, book, run, j).Some?
    ensures Grant(b, book, run, i).value <= Grant(b, book, run, j).value
    ensures run[i].token != run[j].token ==> Grant(b, book, run, i).value < Grant(b, book, run, j).value
    ensures (exists m :: i < m < j && run[m].name == run[i].name && Vacates(b, book, run, m))
            ==> Grant(b, book, run, i).value < Grant(b, book, run, j).value
  {
    GrantIsRemembered(b, book, run, i, j);
    if m :| i < m < j && run[m].name == run[i].name && Vacates(b, book, run, m) {
      VacancyIsRemembered(b, book, run, i, m, j);
    }
  }

  /** Equal fences mean one uninterrupted tenure: nobody else was granted the name in between. */
  lemma EqualFencesOneTenure(b: Boundary, book: Book, run: seq<Event>, i: nat, m: nat, j: nat)
    requires i < m < j < |run| && run[i].name == run[m].name == run[j].name
    requires Grant(b, book, run, i).Some? && Grant(b, book, run, j).Some?
    requires Grant(b, book, run, i).value == Grant(b, book, run, j).value
    ensures !Vacates(b, book, run, m)
    ensures Grant(b, book, run, m).Some? ==> run[m].token == run[i].token
  {
    FencesClimb(b, book, run, i, j);
    if Grant(b, book, run, m).Some? {
      FencesClimb(b, book, run, i, m);
      FencesClimb(b, book, run, m, j);
    }
  }

  // ---- A protected resource that checks fencing tokens ----

  /** Does a resource whose highest seen token is `top` take a write carrying `fence`? */
  predicate Takes(strict: bool, top: int, fence: nat) {
    if strict then top < fence else top <= fence
  }

  /** The highest token the resource has accepted among the first `k` writes. */
  function Top(strict: bool, writes: seq<nat>, k: nat): (top: int)
    requires k <= |writes|
  {
    if k == 0 then -1
    else
      var top := Top(strict, writes, k - 1);
      if Takes(strict, top, writes[k - 1]) then writes[k - 1] else top
  }

  predicate Accepted(strict: bool, writes: seq<nat>, k: nat)
    requires k < |writes|
  {
    Takes(strict, Top(strict, writes, k), writes[k])
  }

  lemma {:induction false} TopCoversAccepted(strict: bool, writes: seq<nat>, p: nat, k: nat)
    requires p < k <= |writes| && Accepted(strict, writes, p)
    ensures writes[p] <= Top(strict, writes, k)
    decreases k
  {
    if p + 1 < k {
      TopCoversAccepted(strict, writes, p, k - 1);
    }
  }

  /**
   The point of fencing: writes carry the fence of the grant they were made under and reach the
   resource in any order, yet once a write of a later holder was accepted, no write made under an
   earlier grant to another token is. Holds for resources rejecting lower tokens and for those
   rejecting lower or equal ones.
   */
  lemma NoStaleWriteAfterNewer(b: Boundary, book: Book, run: seq<Event>, strict: bool,
                               grants: seq<nat>, fences: seq<nat>, p: nat, q: nat)
    requires |grants| == |fences| && p < q < |grants|
    requires forall w :: 0 <= w < |grants| ==>
               grants[w] < |run| && Grant(b, book, run, grants[w]) == Some(fences[w])
    requires run[grants[p]].name == run[grants[q]].name
    requires grants[q] < grants[p] && run[grants[q]].token != run[grants[p]].token
    requires Accepted(strict, fences, p)
    ensures !Accepted(strict, fences, q)
  {
    FencesClimb(b, book, run, grants[q], grants[p]);
    TopCoversAccepted(strict, fences, p, q);
  }
}
