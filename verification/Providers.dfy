/** The items of an app, what their backends hold, and when a list of them is in opening order. */
module Providers {
  import opened Options

  /** `id` stands for the identity of the object. */
  datatype Provider = Provider(id: nat, cls: string, envPrefix: string)

  type ShareKey = (string, string)

  function KeyOf(p: Provider): ShareKey { (p.cls, p.envPrefix) }

  /** Providers that may be shared: of one class and configured from one environment prefix. */
  predicate SameKind(p: Provider, q: Provider) { p.cls == q.cls && p.envPrefix == q.envPrefix }

  datatype Held = Nothing | Owned(provider: Provider) | Borrowed(provider: Provider)

  class Backend {
    var held: Held

    constructor (held: Held)
      ensures this.held == held
    {
      this.held := held;
    }
  }

  /** A listed provider, or any other item with its named backend slots and its plain backend. */
  datatype Item = Shared(provider: Provider) | Part(id: nat, slots: seq<Option<Backend>>, main: Backend)

  function Present(slots: seq<Option<Backend>>): seq<Backend> {
    if slots == [] then []
    else (if slots[0].Some? then [slots[0].value] else []) + Present(slots[1..])
  }

  /** A provider holds no provider. */
  function Backends(item: Item): seq<Backend> {
    if item.Shared? then []
    else
      var present := Present(item.slots);
      if present == [] then [item.main] else present
  }

  /** The filled slots are reached in their order. */
  lemma PresentNext(slot: Option<Backend>, rest: seq<Option<Backend>>)
    ensures Present([slot] + rest) == (if slot.Some? then [slot.value] else []) + Present(rest)
  {
    assert ([slot] + rest)[1..] == rest;
  }

  lemma {:induction false} PresentAre(slots: seq<Option<Backend>>, b: Backend)
    ensures b in Present(slots) <==> Some(b) in slots
  {
    if slots != [] {
      assert slots == [slots[0]] + slots[1..];
      PresentAre(slots[1..], b);
    }
  }

  /** An item is walked into through its filled slots, or through its plain backend when it has none. */
  lemma BackendsAre(item: Item, b: Backend)
    requires item.Part?
    ensures b in Backends(item)
            <==> Some(b) in item.slots || (b == item.main && forall s | s in item.slots :: s.None?)
  {
    PresentAre(item.slots, b);
    if Present(item.slots) != [] {
      PresentAre(item.slots, Present(item.slots)[0]);
    }
    forall s | s in item.slots && s.Some? ensures s.value in Present(item.slots) {
      PresentAre(item.slots, s.value);
    }
  }

  /** The backends in the order in which the app reaches them. */
  function Walk(items: seq<Item>): seq<Backend> {
    if items == [] then [] else Walk(items[..|items| - 1]) + Backends(items[|items| - 1])
  }

  // ---- What the passes are for ----

  /** What every backend held before the passes. */
  type Holds = map<Backend, Held>

  ghost predicate Agrees(h: Holds)
    reads h.Keys
  {
    forall b :: b in h ==> b.held == h[b]
  }

  ghost predicate Known(h: Holds, items: seq<Item>) {
    forall x, b :: x in items && b in Backends(x) ==> b in h
  }

  ghost predicate Needs(h: Holds, item: Item, p: Provider) {
    exists b :: b in Backends(item) && b in h && h[b] == Borrowed(p)
  }

  ghost predicate Ready(h: Holds, items: seq<Item>, j: nat)
    requires j < |items|
  {
    forall p :: Needs(h, items[j], p) ==> Shared(p) in items[..j]
  }

  /** Every borrowed provider comes before every item that borrows it. */
  ghost predicate Ordered(h: Holds, items: seq<Item>) { ReadyUpTo(h, items, |items|) }

  ghost predicate ReadyUpTo(h: Holds, items: seq<Item>, n: nat) {
    n <= |items| && forall j :: 0 <= j < n ==> Ready(h, items, j)
  }

  ghost predicate Covered(h: Holds, items: seq<Item>) {
    forall x, p :: x in items && Needs(h, x, p) ==> Shared(p) in items
  }

  ghost predicate Rearranged(before: seq<Item>, after: seq<Item>) {
    multiset(after) == multiset(before) && |after| == |before| && Parts(after) == Parts(before)
  }

  lemma RearrangedKeeps(h: Holds, before: seq<Item>, after: seq<Item>)
    requires Rearranged(before, after)
    ensures Known(h, before) ==> Known(h, after)
    ensures Covered(h, before) ==> Covered(h, after)
  {
    forall x ensures x in after <==> x in before {
      assert x in after <==> x in multiset(after);
      assert x in before <==> x in multiset(before);
    }
  }

  /** The items that are not providers, in order. */
  function Parts(items: seq<Item>): seq<Item> {
    if items == [] then []
    else Parts(items[..|items| - 1]) + (if items[|items| - 1].Part? then [items[|items| - 1]] else [])
  }

  lemma {:induction false} PartsConcat(a: seq<Item>, b: seq<Item>)
    ensures Parts(a + b) == Parts(a) + Parts(b)
  {
    if b == [] {
      assert a + b == a;
    } else {
      assert (a + b)[..|a + b| - 1] == a + b[..|b| - 1];
      PartsConcat(a, b[..|b| - 1]);
    }
  }

  lemma FindsProvider(h: Holds, before: seq<Item>, after: seq<Item>, index: nat, p: Provider)
    requires Rearranged(before, after) && Covered(h, before) && index < |before| && Needs(h, before[index], p)
    ensures Shared(p) in after
  {
    assert before[index] in before;
    assert Shared(p) in multiset(before);
  }

  function First(items: seq<Item>, x: Item): (i: nat)
    requires x in items
    ensures i < |items| && items[i] == x && x !in items[..i]
  {
    if items[0] == x then 0
    else
      assert items == [items[0]] + items[1..];
      var i := First(items[1..], x);
      assert items[..i + 1] == [items[0]] + items[1..][..i];
      i + 1
  }

  /** `items.insert(index, items.pop(position))` */
  function Moved(items: seq<Item>, position: nat, index: nat): seq<Item>
    requires index <= position < |items|
  {
    items[..index] + [items[position]] + items[index..position] + items[position + 1..]
  }

  lemma MoveKeeps(items: seq<Item>, position: nat, index: nat)
    requires index <= position < |items| && items[position].Shared?
    ensures var moved := Moved(items, position, index);
            Rearranged(items, moved) && moved[..index] == items[..index] && moved[index] == items[position]
  {
    var a, b, x, c := items[..index], items[index..position], [items[position]], items[position + 1..];
    assert items == a + b + x + c && Moved(items, position, index) == a + x + b + c;
    SameElements(a, b, x, c);
    SharedMayMove(a, b, x, c);
  }

  lemma SameElements(a: seq<Item>, b: seq<Item>, x: seq<Item>, c: seq<Item>)
    ensures multiset(a + x + b + c) == multiset(a + b + x + c)
  {
  }

  lemma SharedMayMove(a: seq<Item>, b: seq<Item>, x: seq<Item>, c: seq<Item>)
    requires |x| == 1 && x[0].Shared?
    ensures Parts(a + x + b + c) == Parts(a + b + x + c)
  {
    PartsOfThree(a, x, b);
    PartsOfThree(a, b, x);
    PartsConcat(a + b + x, c);
    PartsConcat(a + x + b, c);
    assert x[..0] == [] && Parts(x) == [];
  }

  lemma PartsOfThree(a: seq<Item>, b: seq<Item>, c: seq<Item>)
    ensures Parts(a + b + c) == Parts(a) + Parts(b) + Parts(c)
  {
    PartsConcat(a + b, c);
    PartsConcat(a, b);
  }

  lemma ReadyNeedsThePrefix(h: Holds, items: seq<Item>, items': seq<Item>, n: nat)
    requires n <= |items| && n <= |items'| && items[..n] == items'[..n]
    requires ReadyUpTo(h, items, n)
    ensures ReadyUpTo(h, items', n)
  {
    forall j | 0 <= j < n ensures Ready(h, items', j) {
      assert Ready(h, items, j);
      assert items[j] == items[..n][j] == items'[j] && items[..j] == items[..n][..j] == items'[..j];
    }
  }

  /** The item met at `index` has had `t` of its backends served; its providers come from behind it. */
  ghost predicate Advanced(h: Holds, start: seq<Item>, items: seq<Item>, index: nat, t: nat) {
    && Rearranged(start, items) && index < |start| && items[..index] == start[..index]
    && t <= |Backends(start[index])|
    && (items == start || (items[index].Shared? && !Ready(h, start, index)))
    && (items == start ==> Served(h, start, index, t))
  }

  ghost predicate Served(h: Holds, items: seq<Item>, index: nat, t: nat)
    requires index < |items| && t <= |Backends(items[index])|
  {
    forall b, p :: b in Backends(items[index])[..t] && b in h && h[b] == Borrowed(p) ==> Shared(p) in items[..index]
  }

  lemma ServedNext(h: Holds, items: seq<Item>, index: nat, t: nat)
    requires index < |items| && t < |Backends(items[index])| && Served(h, items, index, t)
    requires var b := Backends(items[index])[t];
             b in h && h[b].Borrowed? ==> Shared(h[b].provider) in items[..index]
    ensures Served(h, items, index, t + 1)
  {
    var bs := Backends(items[index]);
    assert bs[..t + 1] == bs[..t] + [bs[t]];
  }

  lemma BorrowsAt(h: Holds, items: seq<Item>, index: nat, t: nat)
    requires index < |items| && t < |Backends(items[index])| && Known(h, items)
    ensures Backends(items[index])[t] in h
    ensures var b := Backends(items[index])[t]; h[b].Borrowed? ==> Needs(h, items[index], h[b].provider)
  {
    assert items[index] in items;
    assert Backends(items[index])[t] in Backends(items[index]);
  }

  lemma AdvancedIsReady(h: Holds, start: seq<Item>, items: seq<Item>, index: nat)
    requires index < |start| && Advanced(h, start, items, index, |Backends(start[index])|)
    ensures Ready(h, items, index)
  {
    if items == start {
      assert Served(h, start, index, |Backends(start[index])|);
    }
  }

  lemma AdvanceIdle(h: Holds, start: seq<Item>, items: seq<Item>, index: nat, t: nat)
    requires Advanced(h, start, items, index, t) && t < |Backends(start[index])|
    requires var b := Backends(start[index])[t]; b in h && !h[b].Borrowed?
    ensures Advanced(h, start, items, index, t + 1)
  {
    if items == start {
      ServedNext(h, start, index, t);
    }
  }

  lemma AdvanceOne(h: Holds, start: seq<Item>, items: seq<Item>, index: nat, t: nat, p: Provider)
    requires Advanced(h, start, items, index, t) && t < |Backends(start[index])| && Shared(p) in items
    requires var b := Backends(start[index])[t]; b in h && h[b] == Borrowed(p)
    ensures var position := First(items, Shared(p));
            if position <= index then Advanced(h, start, items, index, t + 1)
            else Advanced(h, start, Moved(items, position, index), index, t + 1) && !Ready(h, start, index)
  {
    var position := First(items, Shared(p));
    if position > index {
      NotYetReady(h, start, items, index, Backends(start[index])[t], p);
      MoveKeeps(items, position, index);
    } else if items == start {
      assert position < index && start[..index][position] == Shared(p);
      ServedNext(h, start, index, t);
    }
  }

  lemma NotYetReady(h: Holds, start: seq<Item>, items: seq<Item>, index: nat, b: Backend, p: Provider)
    requires index < |start| && index <= |items| && items[..index] == start[..index]
    requires b in Backends(start[index]) && b in h && h[b] == Borrowed(p)
    requires Shared(p) in items && First(items, Shared(p)) > index
    ensures !Ready(h, start, index)
  {
    var position := First(items, Shared(p));
    assert items[..index] == items[..position][..index];
    assert Needs(h, start[index], p);
  }

  ghost predicate Enumerated(h: Holds, start: seq<Item>, items: seq<Item>, index: nat) {
    Rearranged(start, items) && ReadyUpTo(h, items, index) && (Ordered(h, start) ==> items == start)
  }

  lemma EnumerateNext(h: Holds, start: seq<Item>, before: seq<Item>, items: seq<Item>, index: nat)
    requires Enumerated(h, start, before, index) && index < |before|
    requires Rearranged(before, items) && items[..index] == before[..index] && Ready(h, items, index)
    requires Ready(h, before, index) ==> items == before
    ensures Enumerated(h, start, items, index + 1)
  {
    ReadyNeedsThePrefix(h, before, items, index);
    if Ordered(h, start) {
      assert Ready(h, start, index);
    }
  }
}

/** Providers that components borrow but the app does not list are adopted into the list. */
module Adoption {
  import opened Providers

  function Elements(items: seq<Item>): set<Item> { set x | x in items }

  /** The unknown providers among what `bs` borrow, each once. */
  ghost function Adopt(h: Holds, bs: seq<Backend>, known: set<Item>): seq<Item> {
    if bs == [] then []
    else
      var rest, b := Adopt(h, bs[..|bs| - 1], known), bs[|bs| - 1];
      if b in h && h[b].Borrowed? && Shared(h[b].provider) !in known && Shared(h[b].provider) !in rest
      then rest + [Shared(h[b].provider)]
      else rest
  }

  /** Each listed item, behind the providers that it is the first to borrow. */
  ghost function Rebuilt(h: Holds, items: seq<Item>, listed: set<Item>): seq<Item> {
    if items == [] then []
    else
      var before, last := Rebuilt(h, items[..|items| - 1], listed), items[|items| - 1];
      before + Adopt(h, Backends(last), listed + Elements(before)) + [last]
  }

  lemma RebuiltNext(h: Holds, items: seq<Item>, i: nat, listed: set<Item>)
    requires i < |items|
    ensures var before := Rebuilt(h, items[..i], listed);
            Rebuilt(h, items[..i + 1], listed)
            == before + Adopt(h, Backends(items[i]), listed + Elements(before)) + [items[i]]
  {
    assert items[..i + 1][..i] == items[..i];
  }

  ghost predicate Lends(h: Holds, bs: seq<Backend>, x: Item) {
    x.Shared? && exists b :: b in bs && b in h && h[b] == Borrowed(x.provider)
  }

  ghost predicate Borrowing(h: Holds, items: seq<Item>, x: Item) {
    x.Shared? && exists j :: 0 <= j < |items| && Needs(h, items[j], x.provider)
  }

  lemma {:induction false} AdoptCounts(h: Holds, bs: seq<Backend>, known: set<Item>, x: Item)
    ensures multiset(Adopt(h, bs, known))[x] == if x !in known && Lends(h, bs, x) then 1 else 0
  {
    if bs != [] {
      var n := |bs|;
      AdoptCounts(h, bs[..n - 1], known, x);
      assert bs == bs[..n - 1] + [bs[n - 1]];
      assert x in Adopt(h, bs[..n - 1], known) <==> x in multiset(Adopt(h, bs[..n - 1], known));
    }
  }

  /** `x` occurs as often as before, and once if it is an unlisted provider that an item borrows. */
  ghost predicate AdoptedOnce(h: Holds, items: seq<Item>, listed: set<Item>, after: seq<Item>, x: Item) {
    multiset(after)[x] == multiset(items)[x] + (if x !in listed && Borrowing(h, items, x) then 1 else 0)
  }

  ghost predicate JustAdopted(h: Holds, items: seq<Item>, after: seq<Item>) {
    && (forall p :: AdoptedOnce(h, items, Elements(items), after, Shared(p)))
    && forall x :: x in items + after ==> AdoptedOnce(h, items, Elements(items), after, x)
  }

  lemma {:induction false} EachAdoptedOnce(h: Holds, items: seq<Item>, listed: set<Item>, x: Item)
    requires Elements(items) <= listed
    ensures AdoptedOnce(h, items, listed, Rebuilt(h, items, listed), x)
  {
    if items != [] {
      var n := |items|;
      var init, last := items[..n - 1], items[n - 1];
      assert items == init + [last];
      EachAdoptedOnce(h, init, listed, x);
      var before := Rebuilt(h, init, listed);
      AdoptCounts(h, Backends(last), listed + Elements(before), x);
      BorrowingGrows(h, init, last, x);
      assert x in before <==> x in multiset(before);
      assert x in items ==> x in listed;
    }
  }

  /** The rebuilt list is the listed items and, exactly once, each unlisted provider that one of them borrows. */
  lemma RebuiltJustAdopts(h: Holds, items: seq<Item>)
    ensures JustAdopted(h, items, Rebuilt(h, items, Elements(items)))
  {
    var rebuilt := Rebuilt(h, items, Elements(items));
    forall p ensures AdoptedOnce(h, items, Elements(items), rebuilt, Shared(p)) {
      EachAdoptedOnce(h, items, Elements(items), Shared(p));
    }
    forall x | x in items + rebuilt ensures AdoptedOnce(h, items, Elements(items), rebuilt, x) {
      EachAdoptedOnce(h, items, Elements(items), x);
    }
  }

  lemma RearrangedStillAdopts(h: Holds, items: seq<Item>, rebuilt: seq<Item>, after: seq<Item>)
    requires JustAdopted(h, items, rebuilt) && Rearranged(rebuilt, after)
    ensures JustAdopted(h, items, after)
  {
    forall p ensures AdoptedOnce(h, items, Elements(items), after, Shared(p)) {
      assert AdoptedOnce(h, items, Elements(items), rebuilt, Shared(p));
    }
    forall x | x in items + after ensures AdoptedOnce(h, items, Elements(items), after, x) {
      assert x in after ==> x in multiset(after) && x in multiset(rebuilt);
      assert AdoptedOnce(h, items, Elements(items), rebuilt, x);
    }
  }

  lemma BorrowingGrows(h: Holds, init: seq<Item>, last: Item, x: Item)
    ensures Borrowing(h, init + [last], x) <==> Borrowing(h, init, x) || Lends(h, Backends(last), x)
  {
    var items := init + [last];
    if x.Shared? {
      assert Needs(h, last, x.provider) <==> Lends(h, Backends(last), x);
      if Borrowing(h, init, x) {
        var j :| 0 <= j < |init| && Needs(h, init[j], x.provider);
        assert Needs(h, items[j], x.provider);
      }
      if Lends(h, Backends(last), x) {
        assert Needs(h, items[|init|], x.provider);
      }
    }
  }

  lemma {:induction false} AdoptedAreProviders(h: Holds, bs: seq<Backend>, known: set<Item>)
    ensures Parts(Adopt(h, bs, known)) == []
    ensures forall j :: 0 <= j < |Adopt(h, bs, known)| ==> Adopt(h, bs, known)[j].Shared?
  {
    if bs != [] {
      AdoptedAreProviders(h, bs[..|bs| - 1], known);
      var rest := Adopt(h, bs[..|bs| - 1], known);
      if Adopt(h, bs, known) != rest {
        assert Adopt(h, bs, known)[..|rest|] == rest;
      }
    }
  }

  lemma {:induction false} RebuiltKeepsParts(h: Holds, items: seq<Item>, listed: set<Item>)
    ensures Parts(Rebuilt(h, items, listed)) == Parts(items)
  {
    if items != [] {
      var before, last := Rebuilt(h, items[..|items| - 1], listed), items[|items| - 1];
      var adopted := Adopt(h, Backends(last), listed + Elements(before));
      RebuiltKeepsParts(h, items[..|items| - 1], listed);
      AdoptedAreProviders(h, Backends(last), listed + Elements(before));
      PartsOfThree(before, adopted, [last]);
      assert [last][..0] == [];
    }
  }

  /** No listed provider comes only after an item that borrows it. */
  ghost predicate ListedInOrder(h: Holds, items: seq<Item>, listed: set<Item>) {
    forall j :: 0 <= j < |items| ==> ListedReady(h, items, listed, j)
  }

  ghost predicate ListedReady(h: Holds, items: seq<Item>, listed: set<Item>, j: nat)
    requires j < |items|
  {
    forall p :: Needs(h, items[j], p) && Shared(p) in listed ==> Shared(p) in items[..j]
  }

  /** Only listed providers can come too late. */
  lemma {:induction false} LatenessIsListed(h: Holds, items: seq<Item>, listed: set<Item>)
    requires Elements(items) <= listed
    ensures Ordered(h, Rebuilt(h, items, listed)) <==> ListedInOrder(h, items, listed)
  {
    if items != [] {
      var n := |items|;
      var init, last := items[..n - 1], items[n - 1];
      var before := Rebuilt(h, init, listed);
      var adopted := Adopt(h, Backends(last), listed + Elements(before));
      assert items == init + [last];
      LatenessIsListed(h, init, listed);
      AdoptedAreProviders(h, Backends(last), listed + Elements(before));
      OrderedGrows(h, before, adopted, last);
      ListedGrows(h, init, last, listed);
      forall p | Needs(h, last, p)
        ensures Shared(p) in before + adopted <==> Shared(p) !in listed || Shared(p) in init
      {
        AdoptedOrListed(h, init, last, listed, p);
      }
    }
  }

  lemma AdoptedOrListed(h: Holds, init: seq<Item>, last: Item, listed: set<Item>, p: Provider)
    requires Elements(init) <= listed && Needs(h, last, p)
    ensures var before := Rebuilt(h, init, listed);
            Shared(p) in before + Adopt(h, Backends(last), listed + Elements(before))
            <==> Shared(p) !in listed || Shared(p) in init
  {
    var before := Rebuilt(h, init, listed);
    var adopted, x := Adopt(h, Backends(last), listed + Elements(before)), Shared(p);
    EachAdoptedOnce(h, init, listed, x);
    AdoptCounts(h, Backends(last), listed + Elements(before), x);
    assert x in before + adopted <==> x in multiset(before) || x in multiset(adopted);
    assert x in init <==> x in multiset(init);
    assert Lends(h, Backends(last), x);
  }

  lemma OrderedGrows(h: Holds, before: seq<Item>, adopted: seq<Item>, last: Item)
    requires forall j :: 0 <= j < |adopted| ==> adopted[j].Shared?
    ensures Ordered(h, before + adopted + [last])
            <==> Ordered(h, before) && forall p :: Needs(h, last, p) ==> Shared(p) in before + adopted
  {
    var items, n := before + adopted + [last], |before| + |adopted|;
    assert items[..|before|] == before[..|before|] && items[..n] == before + adopted;
    if Ordered(h, items) {
      ReadyNeedsThePrefix(h, items, before, |before|);
      assert Ready(h, items, n);
    }
    if Ordered(h, before) {
      ReadyNeedsThePrefix(h, before, items, |before|);
      forall j | |before| <= j < n ensures Ready(h, items, j) {
        assert items[j] == adopted[j - |before|];
      }
    }
  }

  lemma ListedGrows(h: Holds, init: seq<Item>, last: Item, listed: set<Item>)
    ensures ListedInOrder(h, init + [last], listed)
            <==> ListedInOrder(h, init, listed)
                 && forall p :: Needs(h, last, p) && Shared(p) in listed ==> Shared(p) in init
  {
    var items, n := init + [last], |init|;
    assert items[..n] == init;
    forall j | 0 <= j < n ensures ListedReady(h, items, listed, j) <==> ListedReady(h, init, listed, j) {
      assert items[..j] == init[..j];
    }
    assert ListedInOrder(h, items, listed) ==> ListedReady(h, items, listed, n);
  }

  /** An adopted provider enters the list with the first item that borrows it, just before that item. */
  lemma AdoptedWithFirstBorrower(h: Holds, items: seq<Item>, listed: set<Item>, j: nat, x: Item)
    requires Elements(items) <= listed && j < |items| && x !in listed
    ensures x in Rebuilt(h, items[..j + 1], listed) && x !in Rebuilt(h, items[..j], listed)
            <==> Borrowing(h, items[..j + 1], x) && !Borrowing(h, items[..j], x)
  {
    EachAdoptedOnce(h, items[..j], listed, x);
    EachAdoptedOnce(h, items[..j + 1], listed, x);
    assert x !in items[..j] && x !in items[..j + 1];
    var before, after := Rebuilt(h, items[..j], listed), Rebuilt(h, items[..j + 1], listed);
    assert x in before <==> x in multiset(before);
    assert x in after <==> x in multiset(after);
  }

  lemma RebuiltIsFine(h: Holds, items: seq<Item>)
    requires Known(h, items)
    ensures Known(h, Rebuilt(h, items, Elements(items))) && Covered(h, Rebuilt(h, items, Elements(items)))
  {
    var listed := Elements(items);
    var rebuilt := Rebuilt(h, items, listed);
    forall x | x in rebuilt
      ensures x.Part? ==> x in items
      ensures forall p :: Needs(h, x, p) ==> Shared(p) in rebuilt
    {
      EachAdoptedOnce(h, items, listed, x);
      assert x in multiset(rebuilt);
      if x.Part? {
        assert x in multiset(items);
        var j :| 0 <= j < |items| && items[j] == x;
        forall p | Needs(h, x, p) ensures Shared(p) in rebuilt {
          EachAdoptedOnce(h, items, listed, Shared(p));
          assert Needs(h, items[j], p);
          assert Shared(p) in items <==> Shared(p) in multiset(items);
          assert Shared(p) in multiset(rebuilt);
        }
      }
    }
  }

  method AdoptBorrowed(ghost h: Holds, bs: seq<Backend>, listed: set<Item>, known: set<Provider>, items: seq<Item>)
    returns (discovered: set<Provider>, rebuilt: seq<Item>)
    requires Agrees(h) && forall b :: b in bs ==> b in h
    requires forall p :: p in known <==> Shared(p) in items && Shared(p) !in listed
    ensures rebuilt == items + Adopt(h, bs, listed + Elements(items))
    ensures forall p :: p in discovered <==> Shared(p) in rebuilt && Shared(p) !in listed
  {
    discovered, rebuilt := known, items;
    var t := 0;
    while t < |bs|
      invariant t <= |bs| && rebuilt == items + Adopt(h, bs[..t], listed + Elements(items))
      invariant forall p :: p in discovered <==> Shared(p) in rebuilt && Shared(p) !in listed
    {
      var held := bs[t].held;
      assert bs[..t + 1][..t] == bs[..t];
      if held.Borrowed? && Shared(held.provider) !in listed && held.provider !in discovered {
        discovered := discovered + {held.provider};
        rebuilt := rebuilt + [Shared(held.provider)];
      }
      t := t + 1;
    }
    assert bs[..t] == bs;
  }
}

/** Backends that own a provider under the same key come to share the first one. */
module Sharing {
  import opened Options
  import opened Providers

  lemma WalkNext(items: seq<Item>, i: nat)
    requires i < |items|
    ensures Walk(items[..i + 1]) == Walk(items[..i]) + Backends(items[i])
  {
    assert items[..i + 1][..i] == items[..i];
  }

  /** The provider of the first backend on the walk that owns one under `key`. */
  ghost function FirstOwned(h: Holds, walk: seq<Backend>, key: ShareKey): Option<Provider> {
    if walk == [] then None
    else
      var earlier, b := FirstOwned(h, walk[..|walk| - 1], key), walk[|walk| - 1];
      if earlier.Some? then earlier
      else if b in h && h[b].Owned? && KeyOf(h[b].provider) == key then Some(h[b].provider)
      else None
  }

  ghost function After(h: Holds, walk: seq<Backend>, b: Backend): Held
    requires b in h
  {
    if !h[b].Owned? then h[b]
    else
      var first := FirstOwned(h, walk, KeyOf(h[b].provider));
      if first.None? || first.value == h[b].provider then h[b] else Borrowed(first.value)
  }

  ghost predicate Resolving(h: Holds, walk: seq<Backend>, cache: map<ShareKey, Provider>)
    reads h.Keys
  {
    && (forall b :: b in h ==> b.held == if b in walk then After(h, walk, b) else h[b])
    && forall key :: (if key in cache then Some(cache[key]) else None) == FirstOwned(h, walk, key)
  }

  lemma {:induction false} OwnedIsFound(h: Holds, walk: seq<Backend>, b: Backend)
    requires b in walk && b in h && h[b].Owned?
    ensures FirstOwned(h, walk, KeyOf(h[b].provider)).Some?
  {
    var n := |walk|;
    if walk[n - 1] != b {
      assert walk == walk[..n - 1] + [walk[n - 1]];
      OwnedIsFound(h, walk[..n - 1], b);
    }
  }

  lemma WalkGrows(h: Holds, walk: seq<Backend>, b: Backend, c: Backend)
    requires c in walk && c in h
    ensures After(h, walk + [b], c) == After(h, walk, c)
  {
    assert (walk + [b])[..|walk|] == walk;
    if h[c].Owned? {
      OwnedIsFound(h, walk, c);
    }
  }

  method Resolve(ghost h: Holds, ghost walk: seq<Backend>, cache: map<ShareKey, Provider>, b: Backend)
    returns (cache': map<ShareKey, Provider>)
    requires b in h && Resolving(h, walk, cache)
    modifies b
    ensures Resolving(h, walk + [b], cache')
  {
    assert (walk + [b])[..|walk|] == walk;
    forall c | c in walk && c in h ensures After(h, walk + [b], c) == After(h, walk, c) {
      WalkGrows(h, walk, b, c);
    }
    if b in walk && h[b].Owned? {
      OwnedIsFound(h, walk, b);
    }
    cache' := cache;
    if b.held.Owned? {
      var key := KeyOf(b.held.provider);
      if key !in cache {
        cache' := cache[key := b.held.provider];
      } else if cache[key] != b.held.provider {
        b.held := Borrowed(cache[key]);
      }
    }
  }

  method ResolveItem(ghost h: Holds, ghost walk: seq<Backend>, cache: map<ShareKey, Provider>, bs: seq<Backend>)
    returns (cache': map<ShareKey, Provider>)
    requires (forall b :: b in bs ==> b in h) && Resolving(h, walk, cache)
    modifies h.Keys
    ensures Resolving(h, walk + bs, cache')
  {
    cache' := cache;
    var t := 0;
    assert walk + bs[..0] == walk;
    while t < |bs|
      invariant t <= |bs| && Resolving(h, walk + bs[..t], cache')
    {
      assert walk + bs[..t + 1] == walk + bs[..t] + [bs[t]];
      cache' := Resolve(h, walk + bs[..t], cache', bs[t]);
      t := t + 1;
    }
    assert bs[..t] == bs;
  }

  lemma {:induction false} FirstOwnedStays(h: Holds, walk: seq<Backend>, t: nat, key: ShareKey)
    requires t <= |walk| && FirstOwned(h, walk[..t], key).Some?
    ensures FirstOwned(h, walk, key) == FirstOwned(h, walk[..t], key)
  {
    if t == |walk| {
      assert walk[..t] == walk;
    } else {
      assert walk[..|walk| - 1][..t] == walk[..t];
      FirstOwnedStays(h, walk[..|walk| - 1], t, key);
    }
  }

  lemma {:induction false} FirstOwnedExists(h: Holds, walk: seq<Backend>, key: ShareKey) returns (b: Backend)
    requires FirstOwned(h, walk, key).Some?
    ensures var q := FirstOwned(h, walk, key).value; b in walk && b in h && h[b] == Owned(q) && KeyOf(q) == key
  {
    var n := |walk|;
    if FirstOwned(h, walk[..n - 1], key).Some? {
      b := FirstOwnedExists(h, walk[..n - 1], key);
    } else {
      b := walk[n - 1];
    }
  }

  /** After sharing, the owners under one key own one provider. */
  lemma OneOwnedPerKey(h: Holds, walk: seq<Backend>, b: Backend, c: Backend)
    requires b in walk && c in walk && b in h && c in h
    ensures AgreeOnKey(After(h, walk, b), After(h, walk, c))
  {
    if h[b].Owned? {
      OwnedIsFound(h, walk, b);
    }
  }

  /** A backend that lost its provider to sharing borrows one whose owner comes earlier on the walk. */
  lemma OwnerComesFirst(h: Holds, walk: seq<Backend>, t: nat) returns (owner: Backend)
    requires t < |walk| && walk[t] in h && h[walk[t]].Owned? && After(h, walk, walk[t]).Borrowed?
    ensures owner in walk[..t] && owner in h
    ensures After(h, walk, owner) == Owned(After(h, walk, walk[t]).provider)
  {
    var key := KeyOf(h[walk[t]].provider);
    assert FirstOwned(h, walk[..t], key).Some? by {
      if FirstOwned(h, walk[..t], key).None? {
        assert walk[..t + 1][..t] == walk[..t];
        FirstOwnedStays(h, walk, t + 1, key);
      }
    }
    FirstOwnedStays(h, walk, t, key);
    owner := FirstOwnedExists(h, walk[..t], key);
  }

  /** A backend ends up with a provider of the kind it had, and loses its own only to another one of that kind. */
  lemma KindIsKept(h: Holds, walk: seq<Backend>, b: Backend)
    requires b in walk && b in h && h[b].Owned?
    ensures var after := After(h, walk, b);
            && !after.Nothing? && SameKind(after.provider, h[b].provider)
            && (after.Borrowed? ==> after.provider != h[b].provider)
  {
    OwnedIsFound(h, walk, b);
    var c := FirstOwnedExists(h, walk, KeyOf(h[b].provider));
  }

  /** Among the first `t` backends of the walk another one owns a provider of this kind. */
  ghost predicate OwnedBefore(h: Holds, walk: seq<Backend>, t: nat, p: Provider)
    requires t <= |walk|
  {
    exists c :: c in walk[..t] && c in h && h[c].Owned? && SameKind(h[c].provider, p)
  }

  /** The first owner of a kind keeps its provider; every later one with a provider of its own gives it up. */
  lemma FirstOwnerKeeps(h: Holds, walk: seq<Backend>, t: nat)
    requires t < |walk| && walk[t] in h && h[walk[t]].Owned? && OwnersDiffer(h) && walk[t] !in walk[..t]
    ensures After(h, walk, walk[t]) == h[walk[t]] <==> !OwnedBefore(h, walk, t, h[walk[t]].provider)
  {
    var b, key := walk[t], KeyOf(h[walk[t]].provider);
    assert walk[..t + 1][..t] == walk[..t];
    FirstOwnedStays(h, walk, t + 1, key);
    if FirstOwned(h, walk[..t], key).Some? {
      FirstOwnedStays(h, walk, t, key);
      var c := FirstOwnedExists(h, walk[..t], key);
    } else {
      forall c | c in walk[..t] && c in h && h[c].Owned? ensures !SameKind(h[c].provider, h[b].provider) {
        OwnedIsFound(h, walk[..t], c);
      }
    }
  }

  ghost predicate SharedOut(h: Holds, items: seq<Item>)
    reads h.Keys
  {
    forall b :: b in h ==> b.held == if b in Walk(items) then After(h, Walk(items), b) else h[b]
  }

  lemma {:induction false} WalkIsKnown(h: Holds, items: seq<Item>, b: Backend)
    requires Known(h, items) && b in Walk(items)
    ensures b in h
  {
    var n := |items|;
    if b in Walk(items[..n - 1]) {
      WalkIsKnown(h, items[..n - 1], b);
    } else {
      assert items[n - 1] in items;
    }
  }

  /** Before the passes every owner has a provider of its own. */
  ghost predicate OwnersDiffer(h: Holds) {
    forall b, c :: b in h && c in h && b != c && h[b].Owned? && h[c].Owned? ==> h[b].provider != h[c].provider
  }

  /** Then one backend is left to own the provider of a key. */
  lemma OneOwnerPerKey(h: Holds, walk: seq<Backend>, b: Backend, c: Backend)
    requires b in walk && c in walk && b in h && c in h && OwnersDiffer(h)
    ensures SameOwner(b, c, After(h, walk, b), After(h, walk, c))
  {
    OneOwnedPerKey(h, walk, b, c);
  }

  /** Two owners of one kind are one backend. */
  predicate SameOwner(b: Backend, c: Backend, a: Held, d: Held) {
    a.Owned? && d.Owned? && SameKind(a.provider, d.provider) ==> b == c
  }

  lemma SharingLeavesOneOwner(h: Holds, items: seq<Item>)
    requires Known(h, items) && SharedOut(h, items) && OwnersDiffer(h)
    ensures OneOwner(items)
  {
    forall b, c | b in Walk(items) && c in Walk(items) ensures SameOwner(b, c, b.held, c.held) {
      WalkIsKnown(h, items, b);
      WalkIsKnown(h, items, c);
      OneOwnerPerKey(h, Walk(items), b, c);
    }
  }

  lemma SharingLeavesOneOwned(h: Holds, items: seq<Item>)
    requires Known(h, items) && SharedOut(h, items)
    ensures OneOwned(items)
  {
    forall b, c | b in Walk(items) && c in Walk(items) ensures AgreeOnKey(b.held, c.held) {
      WalkIsKnown(h, items, b);
      WalkIsKnown(h, items, c);
      OneOwnedPerKey(h, Walk(items), b, c);
    }
  }

  lemma Associate(a: seq<Backend>, b: seq<Backend>, c: seq<Backend>)
    ensures a + b + c == a + (b + c)
  {
  }

  lemma {:induction false} WalkConcat(a: seq<Item>, b: seq<Item>)
    ensures Walk(a + b) == Walk(a) + Walk(b)
  {
    if b == [] {
      assert a + b == a;
    } else {
      var init, last := b[..|b| - 1], b[|b| - 1];
      WalkConcat(a, init);
      assert (a + b)[..|a + b| - 1] == a + init && (a + b)[|a + b| - 1] == last;
      Associate(Walk(a), Walk(init), Backends(last));
    }
  }

  lemma WalkSplits(items: seq<Item>, j: nat)
    requires j < |items|
    ensures Walk(items) == Walk(items[..j]) + Backends(items[j]) + Walk(items[j + 1..])
  {
    assert items == items[..j + 1] + items[j + 1..];
    WalkConcat(items[..j + 1], items[j + 1..]);
    WalkNext(items, j);
  }

  lemma SplitAt(a: seq<Backend>, b: seq<Backend>, c: seq<Backend>, t: nat)
    requires t < |b|
    ensures (a + b + c)[|a| + t] == b[t] && (a + b + c)[..|a| + t] == a + b[..t]
  {
  }

  lemma FoundOpen(h: Holds, items: seq<Item>, j: nat, t: nat)
    requires Known(h, items) && SharedOut(h, items) && Ordered(h, items)
    requires j < |items| && t < |Backends(items[j])|
    ensures FindsItOpen(items, j, t)
  {
    WalkSplits(items, j);
    SplitAt(Walk(items[..j]), Backends(items[j]), Walk(items[j + 1..]), t);
    BorrowsAt(h, items, j, t);
    var walk, here, b := Walk(items), |Walk(items[..j])| + t, Backends(items[j])[t];
    if b.held.Borrowed? {
      if h[b].Owned? {
        var owner := OwnerComesFirst(h, walk, here);
      } else {
        assert Ready(h, items, j);
      }
    }
  }

  lemma AllFindItOpen(h: Holds, items: seq<Item>)
    requires Known(h, items) && SharedOut(h, items) && Ordered(h, items)
    ensures forall j, t :: 0 <= j < |items| && 0 <= t < |Backends(items[j])| ==> FindsItOpen(items, j, t)
  {
    forall j, t | 0 <= j < |items| && 0 <= t < |Backends(items[j])| ensures FindsItOpen(items, j, t) {
      FoundOpen(h, items, j, t);
    }
  }

  /** The `t`-th backend of item `j` finds what it borrows already open. */
  ghost predicate FindsItOpen(items: seq<Item>, j: nat, t: nat)
    requires j < |items| && t < |Backends(items[j])|
    reads Walk(items[..j]), Backends(items[j])
  {
    var b := Backends(items[j])[t];
    b.held.Borrowed? ==>
      || Shared(b.held.provider) in items[..j]
      || exists c :: c in Walk(items[..j]) + Backends(items[j])[..t] && c.held == Owned(b.held.provider)
  }

  /** Two owned providers of one kind are one. */
  predicate AgreeOnKey(a: Held, b: Held) {
    a.Owned? && b.Owned? && SameKind(a.provider, b.provider) ==> a == b
  }

  ghost predicate OneOwned(items: seq<Item>)
    reads Walk(items)
  {
    forall b, c :: b in Walk(items) && c in Walk(items) ==> AgreeOnKey(b.held, c.held)
  }

  ghost predicate OneOwner(items: seq<Item>)
    reads Walk(items)
  {
    forall b, c :: b in Walk(items) && c in Walk(items) ==> SameOwner(b, c, b.held, c.held)
  }
}

/** The passes of the app over its list, before any item is entered. */
module AppLifecycle {
  import opened Providers
  import opened Adoption
  import opened Sharing

  datatype Outcome = Fine | LifecycleOrderError

  class App {
    var items: seq<Item>
    const strict: bool

    constructor (items: seq<Item>, strict: bool)
      ensures this.items == items && this.strict == strict
    {
      this.items, this.strict := items, strict;
    }

    method MoveProviderAhead(provider: Provider, index: nat) returns (r: Outcome)
      requires index < |items| && Shared(provider) in items
      modifies `items
      ensures var position := First(old(items), Shared(provider));
              if position <= index then r == Fine && items == old(items)
              else if strict then r == LifecycleOrderError && items == old(items)
              else r == Fine && items == Moved(old(items), position, index)
    {
      var position := First(items, Shared(provider));
      if position <= index {
        return Fine;
      }
      if strict {
        return LifecycleOrderError;
      }
      items := items[..position] + items[position + 1..];
      items := items[..index] + [Shared(provider)] + items[index..];
      return Fine;
    }

    method ServeBackend(ghost h: Holds, ghost start: seq<Item>, index: nat, ghost t: nat, b: Backend) returns (r: Outcome)
      requires Agrees(h) && Known(h, start) && Covered(h, start)
      requires Advanced(h, start, items, index, t) && t < |Backends(start[index])| && b == Backends(start[index])[t]
      modifies `items
      ensures r == Fine ==> Advanced(h, start, items, index, t + 1)
      ensures r == LifecycleOrderError ==> strict && !Ready(h, start, index)
      ensures strict ==> items == old(items)
    {
      BorrowsAt(h, start, index, t);
      if b.held.Nothing? || b.held.Owned? {
        AdvanceIdle(h, start, items, index, t);
        return Fine;
      }
      FindsProvider(h, start, items, index, b.held.provider);
      AdvanceOne(h, start, items, index, t, b.held.provider);
      r := MoveProviderAhead(b.held.provider, index);
    }

    /** What the item at `index` borrows moves ahead of it, and the item shifts right. */
    method OrderAt(ghost h: Holds, index: nat) returns (r: Outcome)
      requires index < |items| && Agrees(h) && Known(h, items) && Covered(h, items)
      modifies `items
      ensures Rearranged(old(items), items) && items[..index] == old(items)[..index]
      ensures r == Fine ==> Ready(h, items, index)
      ensures strict ==> items == old(items) && (Ready(h, items, index) ==> r == Fine)
      ensures !strict ==> r == Fine
      ensures Ready(h, old(items), index) ==> items == old(items)
    {
      var bs := Backends(items[index]);
      var t := 0;
      ghost var start := items;
      while t < |bs|
        invariant t <= |bs| && Advanced(h, start, items, index, t) && (strict ==> items == start)
      {
        r := ServeBackend(h, start, index, t, bs[t]);
        if r.LifecycleOrderError? {
          return;
        }
        t := t + 1;
      }
      AdvancedIsReady(h, start, items, index);
      r := Fine;
    }

    /**
     The list is reordered while it is enumerated, so an item whose providers moved ahead of it is
     met again.
     */
    method OrderProvidersBeforeDependents(ghost h: Holds) returns (r: Outcome)
      requires Agrees(h) && Known(h, items) && Covered(h, items)
      modifies `items
      ensures strict ==> items == old(items) && (r == Fine <==> Ordered(h, items))
      ensures !strict ==> r == Fine && Ordered(h, items)
      ensures Rearranged(old(items), items)
      ensures Ordered(h, old(items)) ==> items == old(items)
    {
      var index := 0;
      while index < |items|
        invariant Enumerated(h, old(items), items, index) && (strict ==> items == old(items))
        decreases |old(items)| - index
      {
        RearrangedKeeps(h, old(items), items);
        ghost var before := items;
        r := OrderAt(h, index);
        if r.LifecycleOrderError? {
          return;
        }
        EnumerateNext(h, old(items), before, items, index);
        index := index + 1;
      }
      r := Fine;
    }

    method DiscoverSharedProviders(ghost h: Holds)
      requires Agrees(h) && Known(h, items)
      modifies `items
      ensures items == Rebuilt(h, old(items), Elements(old(items)))
    {
      var listed := Elements(items);
      var discovered: set<Provider> := {};
      var rebuilt: seq<Item> := [];
      var i := 0;
      while i < |items|
        invariant i <= |items| && items == old(items) && rebuilt == Rebuilt(h, items[..i], listed)
        invariant forall p :: p in discovered <==> Shared(p) in rebuilt && Shared(p) !in listed
      {
        RebuiltNext(h, items, i, listed);
        discovered, rebuilt := AdoptBorrowed(h, Backends(items[i]), listed, discovered, rebuilt);
        rebuilt := rebuilt + [items[i]];
        i := i + 1;
      }
      assert items[..i] == old(items);
      items := rebuilt;
    }

    /** The passes that run before any item is entered. */
    method Prepare(ghost h: Holds) returns (r: Outcome)
      requires Agrees(h) && Known(h, items)
      modifies `items, h.Keys
      ensures r == LifecycleOrderError <==> strict && !ListedInOrder(h, old(items), Elements(old(items)))
      ensures JustAdopted(h, old(items), items)
      ensures Parts(items) == Parts(old(items))
      ensures r == Fine ==> OneOwned(items) && (OwnersDiffer(h) ==> OneOwner(items))
      ensures r == Fine ==>
          forall j, t :: 0 <= j < |items| && 0 <= t < |Backends(items[j])| ==> FindsItOpen(items, j, t)
    {
      r := Arrange(h);
      if r == Fine {
        ResolveProviderSharing(h);
        SharingLeavesOneOwned(h, items);
        if OwnersDiffer(h) {
          SharingLeavesOneOwner(h, items);
        }
        AllFindItOpen(h, items);
      }
    }

    method Arrange(ghost h: Holds) returns (r: Outcome)
      requires Agrees(h) && Known(h, items)
      modifies `items
      ensures r == LifecycleOrderError <==> strict && !ListedInOrder(h, old(items), Elements(old(items)))
      ensures JustAdopted(h, old(items), items) && Parts(items) == Parts(old(items))
      ensures Known(h, items) && (r == Fine ==> Ordered(h, items))
    {
      ghost var start := items;
      DiscoverSharedProviders(h);
      ghost var rebuilt := items;
      RebuiltIsFine(h, start);
      LatenessIsListed(h, start, Elements(start));
      r := OrderProvidersBeforeDependents(h);
      RearrangedKeeps(h, rebuilt, items);
      RebuiltKeepsParts(h, start, Elements(start));
      RebuiltJustAdopts(h, start);
      RearrangedStillAdopts(h, start, rebuilt, items);
    }

    method ResolveProviderSharing(ghost h: Holds)
      requires Agrees(h) && Known(h, items)
      modifies h.Keys
      ensures SharedOut(h, items)
    {
      var cache: map<ShareKey, Provider> := map[];
      var i := 0;
      assert items[..0] == [];
      while i < |items|
        invariant i <= |items| && Resolving(h, Walk(items[..i]), cache)
      {
        WalkNext(items, i);
        assert items[i] in items;
        cache := ResolveItem(h, Walk(items[..i]), cache, Backends(items[i]));
        i := i + 1;
      }
      assert items[..i] == items;
    }
  }
}
