/** SQL conditions: a comparison with NULL is unknown, and only a true WHERE selects a row. */
module ThreeValued {
  import opened Options

  datatype Truth = True | False | Unknown

  function And(p: Truth, q: Truth): Truth {
    if p == False || q == False then False else if p == True && q == True then True else Unknown
  }

  function Or(p: Truth, q: Truth): Truth {
    if p == True || q == True then True else if p == False && q == False then False else Unknown
  }

  function Of(c: bool): Truth { if c then True else False }

  function Eq<T(==)>(x: Option<T>, y: T): Truth { if x.None? then Unknown else Of(x.value == y) }
  function AtLeast(x: Option<real>, y: real): Truth { if x.None? then Unknown else Of(x.value >= y) }
  function Below(x: Option<real>, y: real): Truth { if x.None? then Unknown else Of(x.value < y) }
  function IsNull<T>(x: Option<T>): Truth { Of(x.None?) }
}

/**
 The lock row of the relational backends. Postgres and SQLite run the same three statements;
 they differ in what `now` and the expiry are, which the statements take as parameters.
 */
module SqlLock {
  import opened Options
  import opened Leases
  import opened ThreeValued

  datatype Row = Row(token: Option<Token>, expireAt: Option<real>, fence: nat)

  /** INSERT ... ON CONFLICT DO UPDATE ... WHERE ... RETURNING fence */
  function AcquireSql(row: Option<Row>, token: Token, until: real, now: real): (Option<Row>, Option<nat>) {
    if row.None? then (Some(Row(Some(token), Some(until), 1)), Some(1))
    else
      var r := row.value;
      var where := Or(Or(Or(Eq(r.token, token), IsNull(r.token)), IsNull(r.expireAt)), Below(r.expireAt, now));
      if where != True then (row, None)
      else
        var fence := if And(Eq(r.token, token), AtLeast(r.expireAt, now)) == True then r.fence else r.fence + 1;
        (Some(Row(Some(token), Some(until), fence)), Some(fence))
  }

  /** UPDATE ... SET token = NULL, expire_at = NULL WHERE ... RETURNING 1 */
  function ReleaseSql(row: Option<Row>, token: Token, now: real): (Option<Row>, bool) {
    if row.Some? && And(Eq(row.value.token, token), AtLeast(row.value.expireAt, now)) == True
    then (Some(row.value.(token := None, expireAt := None)), true)
    else (row, false)
  }

  /** The statement run when the adapter closes. */
  function ReleaseExpiredSql(row: Option<Row>, now: real): Option<Row> {
    if row.Some? && Below(row.value.expireAt, now) == True
    then Some(row.value.(token := None, expireAt := None))
    else row
  }

  predicate LockedSql(row: Option<Row>, now: real) {
    row.Some? && And(Of(row.value.token.Some?), AtLeast(row.value.expireAt, now)) == True
  }

  predicate OwnedSql(row: Option<Row>, token: Token, now: real) {
    row.Some? && And(Eq(row.value.token, token), AtLeast(row.value.expireAt, now)) == True
  }

  /** The lease a row stands for, also a row with one NULL column only. */
  function LeaseOf(row: Option<Row>): Lease {
    if row.None? then FREE
    else
      var r := row.value;
      Lease(if r.token.Some? && r.expireAt.Some? then Some(Hold(r.token.value, r.expireAt.value)) else None, r.fence)
  }

  /** For every row, NULLs included, each statement does to the lease what the abstract step does. */
  lemma StatementsRefine(row: Option<Row>, token: Token, until: real, now: real)
    ensures var (row', grant) := AcquireSql(row, token, until, now);
            (LeaseOf(row'), grant) == Acquire(Closed, LeaseOf(row), token, until, now)
    ensures var (row', released) := ReleaseSql(row, token, now);
            (LeaseOf(row'), released) == Release(Closed, LeaseOf(row), token, now)
    ensures Same(Closed, LeaseOf(ReleaseExpiredSql(row, now)), LeaseOf(row), now)
    ensures LockedSql(row, now) <==> Held(Closed, LeaseOf(row), now)
    ensures OwnedSql(row, token, now) <==> HeldBy(Closed, LeaseOf(row), token, now)
  {
  }

  // ---- Whole runs on a table ----

  type Table = map<Name, Row>

  function Get(t: Table, n: Name): Option<Row> { if n in t then Some(t[n]) else None }

  function StepSql(t: Table, e: Event): Table {
    match e
    case AcquireEv(n, token, until, now) =>
      var row := AcquireSql(Get(t, n), token, until, now).0;
      if row.Some? then t[n := row.value] else t
    case ReleaseEv(n, token, now) =>
      var row := ReleaseSql(Get(t, n), token, now).0;
      if row.Some? then t[n := row.value] else t
  }

  function TableBefore(t: Table, run: seq<Event>, k: nat): Table
    requires k <= |run|
  {
    if k == 0 then t else StepSql(TableBefore(t, run, k - 1), run[k - 1])
  }

  function BookOf(t: Table): Book { map n | n in t :: LeaseOf(Some(t[n])) }

  lemma StepRefines(t: Table, book: Book, e: Event, n: Name)
    requires LeaseOf(Get(t, n)) == At(book, n)
    ensures LeaseOf(Get(StepSql(t, e), n)) == At(Step(Closed, book, e), n)
  {
    if e.name == n {
      StatementsRefine(Get(t, n), e.token, if e.AcquireEv? then e.until else 0.0, e.now);
    }
  }

  /** From any table the statements keep step with the abstract lease through every run. */
  lemma {:induction false} TableRunRefines(t: Table, run: seq<Event>, k: nat, n: Name)
    requires k <= |run|
    ensures LeaseOf(Get(TableBefore(t, run, k), n)) == At(Before(Closed, BookOf(t), run, k), n)
    ensures k < |run| && run[k].AcquireEv? && run[k].name == n ==>
              AcquireSql(Get(TableBefore(t, run, k), n), run[k].token, run[k].until, run[k].now).1
              == Grant(Closed, BookOf(t), run, k)
    ensures k < |run| && run[k].ReleaseEv? && run[k].name == n ==>
              (ReleaseSql(Get(TableBefore(t, run, k), n), run[k].token, run[k].now).1 <==> Vacates(Closed, BookOf(t), run, k))
    decreases k
  {
    if k > 0 {
      TableRunRefines(t, run, k - 1, n);
      StepRefines(TableBefore(t, run, k - 1), Before(Closed, BookOf(t), run, k - 1), run[k - 1], n);
    }
    if k < |run| {
      var e := run[k];
      StatementsRefine(Get(TableBefore(t, run, k), n), e.token, if e.AcquireEv? then e.until else 0.0, e.now);
    }
  }
}

/**
 SQLite keeps whole seconds: `datetime('now')` drops the fraction and the duration is rounded up.
 */
module SqliteLock {
  import opened Options
  import opened Rounding
  import opened Leases
  import opened SqlLock

  function Seconds(t: real): real { t.Floor as real }

  function AcquireSqlite(row: Option<Row>, token: Token, duration: real, t: real): (Option<Row>, Option<nat>) {
    AcquireSql(row, token, Seconds(t) + Ceil(duration) as real, Seconds(t))
  }

  function ReleaseSqlite(row: Option<Row>, token: Token, t: real): (Option<Row>, bool) {
    ReleaseSql(row, token, Seconds(t))
  }

  /** In real time a whole-second expiry `e` is held up to, not including, `e + 1`. */
  function RealLease(row: Option<Row>): Lease {
    var l := LeaseOf(row);
    l.(hold := if l.hold.Some? then Some(l.hold.value.(expireAt := l.hold.value.expireAt + 1.0)) else None)
  }

  /** Stored expiries are whole seconds. */
  predicate WholeSeconds(row: Option<Row>) {
    row.Some? && row.value.expireAt.Some? ==> row.value.expireAt.value == Seconds(row.value.expireAt.value)
  }

  /** When a lease granted at real time `t` for `d` ends in real time. */
  function RealUntil(t: real, d: real): (until: real)
    ensures t + d < until < t + d + 2.0
  {
    Seconds(t) + Ceil(d) as real + 1.0
  }

  /** The truncated clock makes the closed whole-second lease an open lease in real time. */
  lemma TruncationOpensBoundary(e: real, t: real)
    requires e == Seconds(e)
    ensures Seconds(t) <= e <==> t < e + 1.0
  {
    var n, m := e.Floor, t.Floor;
    assert m as real <= t < (m + 1) as real;
    if m <= n {
      assert (m + 1) as real <= (n + 1) as real;
    } else {
      assert (n + 1) as real <= m as real;
    }
  }

  lemma WholeSum(t: real, n: int)
    ensures Seconds(t) + n as real == Seconds(Seconds(t) + n as real)
  {
    assert Seconds(t) + n as real == (t.Floor + n) as real;
  }

  /**
   SQLite refines the abstract lease with a bounded extension: a request for `d` at real time `t`
   acts like an abstract request held until `RealUntil(t, d)`, which is past `t + d` and before
   `t + d + 2`.
   */
  lemma SqliteRefines(row: Option<Row>, token: Token, d: real, t: real)
    requires WholeSeconds(row)
    ensures var (row', grant) := AcquireSqlite(row, token, d, t);
            && WholeSeconds(row')
            && (RealLease(row'), grant) == Acquire(Open, RealLease(row), token, RealUntil(t, d), t)
    ensures var (row', released) := ReleaseSqlite(row, token, t);
            && WholeSeconds(row')
            && (RealLease(row'), released) == Release(Open, RealLease(row), token, t)
  {
    var until := Seconds(t) + Ceil(d) as real;
    StatementsRefine(row, token, until, Seconds(t));
    WholeSum(t, Ceil(d));
    if LeaseOf(row).hold.Some? {
      TruncationOpensBoundary(LeaseOf(row).hold.value.expireAt, t);
    }
  }

  /**
   A lease granted for `d` at `t` and neither renewed nor released refuses every other token,
   whatever it asks for, through `t + d` and is free for everyone from `t + d + 2` on.
   */
  lemma SqliteLeaseWindow(row: Option<Row>, token: Token, d: real, t: real,
                          other: Token, asked: real, u: real)
    requires WholeSeconds(row) && token != other && t <= u
    requires AcquireSqlite(row, token, d, t).1.Some?
    ensures var row' := AcquireSqlite(row, token, d, t).0;
            && (u <= t + d ==> AcquireSqlite(row', other, asked, u).1.None?)
            && (t + d + 2.0 <= u ==> AcquireSqlite(row', other, asked, u).1.Some?)
  {
    SqliteRefines(row, token, d, t);
    SqliteRefines(AcquireSqlite(row, token, d, t).0, other, asked, u);
  }

  /** No smaller bound than two seconds will do: the overrun comes as close to it as one likes. */
  lemma OverrunIsTight(eps: real)
    requires 0.0 < eps < 1.0
    ensures var row := AcquireSqlite(None, "a", eps, 0.0).0;
            AcquireSqlite(row, "b", eps, eps + (2.0 - 2.0 * eps)).1.None?
  {
    var u := eps + (2.0 - 2.0 * eps);
    assert eps.Floor == 0;
    assert u == 2.0 - eps && u.Floor == 1;
  }
}
