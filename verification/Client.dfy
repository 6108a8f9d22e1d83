/** The shipped client's local store: what a batch does to it, what it acknowledges, and what is left
    when a local write fails. */
module Client {
  import opened Items
  import opened ReplayGate

  /** A batch that was planned and is being written: what is still to be stored, and what it will
      acknowledge once it is. */
  datatype Job = Job(todo: set<Item>, watermark: map<string, int>)

  /** Forward-only cursors in memory and those on disk, the items applied to the local database, the
      batches in progress in the order they were planned, and the frames received but not yet planned in
      the order they arrived: frames are handled concurrently. */
  datatype Store = Store(
    cursors: map<string, int>, disk: map<string, int>, persisted: set<Item>, jobs: seq<Job>, received: seq<seq<Item>>)

  /** What a batch brings: message items at or below the cursor are skipped as duplicates, overlays are
      always folded in. */
  function Fresh(cursors: map<string, int>, items: seq<Item>): set<Item> {
    set x | x in items && (x.overlay || x.num > SeenOf(cursors, x.conv))
  }

  /** Planning a batch raises every cursor in memory to the highest seq received, before anything is
      written. */
  function Planned(c: Store, items: seq<Item>): Store {
    var cursors := Advanced(c.cursors, items);
    c.(cursors := cursors, jobs := c.jobs + [Job(Fresh(c.cursors, items), Watermark(cursors, items))])
  }

  /** The cursor rows of `convs` written to disk, each replacing what was there. */
  function Noted(disk: map<string, int>, watermark: map<string, int>, convs: set<string>): map<string, int> {
    disk + map conv | conv in convs && conv in watermark :: watermark[conv]
  }

  /** The cumulative acknowledgement of a batch: every touched conversation at its new cursor. */
  function Watermark(cursors: map<string, int>, items: seq<Item>): map<string, int> {
    map conv | conv in Touched(items) :: SeenOf(cursors, conv)
  }

  function Touched(items: seq<Item>): set<string> {
    set x | x in items :: x.conv
  }

  lemma TouchedSnoc(items: seq<Item>, it: Item)
    ensures Touched(items + [it]) == Touched(items) + {it.conv}
  {
    assert it in items + [it];
    forall x | x in items ensures x.conv in Touched(items + [it]) { assert x in items + [it]; }
  }

  ghost predicate OneItemPerKey(items: seq<Item>) {
    forall x, y :: x in items && y in items && SameKey(x, y) ==> x == y
  }

  ghost predicate ByNum(s: seq<Item>) {
    forall i, j :: 0 <= i < j < |s| ==> s[i].num <= s[j].num
  }

  /** A conversation enters a watermark with a positive number and never leaves. */
  lemma {:induction false} AdvancedKeys(seen: map<string, int>, items: seq<Item>, conv: string)
    ensures conv in seen ==> conv in Advanced(seen, items)
    ensures conv !in seen ==> (conv in Advanced(seen, items) <==> SeenOf(Advanced(seen, items), conv) > 0)
    ensures (conv in seen ==> seen[conv] > 0) && conv in Advanced(seen, items) ==> Advanced(seen, items)[conv] > 0
  {
    if items != [] { AdvancedKeys(seen, items[..|items| - 1], conv); }
  }

  lemma AdvancedIgnoresOrder(seen: map<string, int>, s: seq<Item>, t: seq<Item>)
    requires forall x :: x in s <==> x in t
    ensures Advanced(seen, s) == Advanced(seen, t)
  {
    var a, b := Advanced(seen, s), Advanced(seen, t);
    forall conv: string
      ensures conv in a <==> conv in b
      ensures conv in a ==> a[conv] == b[conv]
    {
      AdvancedCovers(seen, s, conv);
      AdvancedCovers(seen, t, conv);
      AdvancedKeys(seen, s, conv);
      AdvancedKeys(seen, t, conv);
      assert SeenOf(a, conv) == SeenOf(b, conv);
    }
  }

  /** The messages a walk over `order` inserts: those above the running cursor. */
  function Inserts(cursors: map<string, int>, order: seq<Item>): seq<Item> {
    if order == [] then []
    else
      var init, it := order[..|order| - 1], order[|order| - 1];
      Inserts(cursors, init)
      + if !it.overlay && it.num > SeenOf(Advanced(cursors, init), it.conv) then [it] else []
  }

  function Overlays(order: seq<Item>): seq<Item> {
    if order == [] then []
    else Overlays(order[..|order| - 1]) + if order[|order| - 1].overlay then [order[|order| - 1]] else []
  }

  lemma {:induction false} OverlaysMean(order: seq<Item>)
    ensures forall x :: x in Overlays(order) <==> x in order && x.overlay
  {
    if order != [] {
      OverlaysMean(order[..|order| - 1]);
      assert order == order[..|order| - 1] + [order[|order| - 1]];
    }
  }

  lemma {:induction false} InsertsFrom(cursors: map<string, int>, order: seq<Item>)
    ensures forall x :: x in Inserts(cursors, order) ==> x in order && !x.overlay && x.num > SeenOf(cursors, x.conv)
    ensures ConvAscending(Inserts(cursors, order))
  {
    if order != [] {
      var init, it := order[..|order| - 1], order[|order| - 1];
      InsertsFrom(cursors, init);
      assert order == init + [it];
      AdvancedCovers(cursors, init, it.conv);
      if !it.overlay && it.num > SeenOf(Advanced(cursors, init), it.conv) {
        AppendExceeding(Inserts(cursors, init), it);
      }
    }
  }

  lemma {:induction false} InsertsAll(cursors: map<string, int>, order: seq<Item>, x: Item)
    requires ByNum(order) && OneItemPerKey(order)
    requires x in order && !x.overlay && x.num > SeenOf(cursors, x.conv)
    ensures x in Inserts(cursors, order)
  {
    var init, it := order[..|order| - 1], order[|order| - 1];
    assert order == init + [it];
    if x in init {
      InsertsAll(cursors, init, x);
    } else {
      AdvancedCovers(cursors, init, x.conv);
      if x.num <= SeenOf(Advanced(cursors, init), x.conv) {
        var y :| y in init && y.conv == x.conv && y.num == SeenOf(Advanced(cursors, init), x.conv);
        assert y in order && SameKey(x, y);
        assert false;
      }
    }
  }

  /** What a walk inserts, provided no two different items claim one sequence number. */
  lemma InsertsMean(cursors: map<string, int>, order: seq<Item>)
    requires ByNum(order) && OneItemPerKey(order)
    ensures forall x :: x in order && !x.overlay && x.num > SeenOf(cursors, x.conv) ==> x in Inserts(cursors, order)
  {
    forall x | x in order && !x.overlay && x.num > SeenOf(cursors, x.conv)
      ensures x in Inserts(cursors, order)
    {
      InsertsAll(cursors, order, x);
    }
  }

  /** Walks a batch in seq order, as the shipped planner does. `order` is the batch rearranged by
      seq; which of two items under one sequence number comes first is all that it decides. */
  method PlanInboxBatch(items: seq<Item>, order: seq<Item>, was: map<string, int>)
      returns (inserts: seq<Item>, overlays: seq<Item>, watermark: map<string, int>, cursors: map<string, int>)
    requires ByNum(order) && (forall x :: x in items <==> x in order)
    ensures cursors == Advanced(was, items)
    ensures watermark == Watermark(cursors, items)
    ensures forall x :: x in inserts ==> x in items && !x.overlay && x.num > SeenOf(was, x.conv)
    ensures ConvAscending(inserts)
    ensures forall x :: x in overlays <==> x in items && x.overlay
    ensures OneItemPerKey(items) ==> Elements(inserts + overlays) == Fresh(was, items)
  {
    var touched;
    inserts, overlays, cursors, touched := Walk(order, was);
    InsertsFrom(was, order);
    OverlaysMean(order);
    AdvancedIgnoresOrder(was, items, order);
    SameTouched(items, order);
    watermark := map conv | conv in touched :: SeenOf(cursors, conv);
    if OneItemPerKey(items) {
      FreshMeans(was, items, order);
    }
  }

  function Elements(s: seq<Item>): set<Item> {
    set x | x in s
  }

  lemma SameTouched(s: seq<Item>, t: seq<Item>)
    requires forall x :: x in s <==> x in t
    ensures Touched(s) == Touched(t)
  {
  }

  lemma FreshMeans(was: map<string, int>, items: seq<Item>, order: seq<Item>)
    requires ByNum(order) && OneItemPerKey(items) && (forall x :: x in items <==> x in order)
    ensures Elements(Inserts(was, order) + Overlays(order)) == Fresh(was, items)
  {
    InsertsFrom(was, order);
    InsertsMean(was, order);
    OverlaysMean(order);
    forall x
      ensures x in Elements(Inserts(was, order) + Overlays(order))
         <==> x in items && (x.overlay || x.num > SeenOf(was, x.conv))
    {
    }
  }

  method Walk(order: seq<Item>, was: map<string, int>)
      returns (inserts: seq<Item>, overlays: seq<Item>, cursors: map<string, int>, touched: set<string>)
    ensures inserts == Inserts(was, order) && overlays == Overlays(order)
    ensures cursors == Advanced(was, order)
    ensures touched == Touched(order)
  {
    inserts, overlays, cursors, touched := [], [], was, {};
    for i := 0 to |order|
      invariant inserts == Inserts(was, order[..i]) && overlays == Overlays(order[..i])
      invariant cursors == Advanced(was, order[..i])
      invariant touched == Touched(order[..i])
    {
      var it := order[i];
      WalkStep(was, order, i);
      touched := touched + {it.conv};
      if it.overlay {
        overlays := overlays + [it];
      } else if it.num > SeenOf(cursors, it.conv) {
        inserts := inserts + [it];
      }
      if it.num > SeenOf(cursors, it.conv) {
        cursors := cursors[it.conv := it.num];
      }
    }
    assert order[..|order|] == order;
  }

  lemma WalkStep(was: map<string, int>, order: seq<Item>, i: nat)
    requires i < |order|
    ensures Advanced(was, order[..i + 1])
         == if order[i].num > SeenOf(Advanced(was, order[..i]), order[i].conv)
            then Advanced(was, order[..i])[order[i].conv := order[i].num] else Advanced(was, order[..i])
    ensures Inserts(was, order[..i + 1])
         == if !order[i].overlay && order[i].num > SeenOf(Advanced(was, order[..i]), order[i].conv)
            then Inserts(was, order[..i]) + [order[i]] else Inserts(was, order[..i])
    ensures Overlays(order[..i + 1]) == if order[i].overlay then Overlays(order[..i]) + [order[i]] else Overlays(order[..i])
    ensures Touched(order[..i + 1]) == Touched(order[..i]) + {order[i].conv}
  {
    assert order[..i + 1][..i] == order[..i];
    assert order[..i + 1] == order[..i] + [order[i]];
    TouchedSnoc(order[..i], order[i]);
  }

  // ------------------------------------------------ one process, many batches

  /** The cursors after batches in planning order. */
  function AdvancedAll(was: map<string, int>, batches: seq<seq<Item>>): map<string, int> {
    if batches == [] then was
    else Advanced(AdvancedAll(was, batches[..|batches| - 1]), batches[|batches| - 1])
  }

  /** Every message those batches insert, in order. */
  function InsertLog(was: map<string, int>, batches: seq<seq<Item>>): seq<Item> {
    if batches == [] then []
    else
      var init := batches[..|batches| - 1];
      InsertLog(was, init) + Inserts(AdvancedAll(was, init), batches[|batches| - 1])
  }

  /** Over every sequence of batches, with any duplicates and in any order, the messages inserted are
      strictly increasing per conversation: each is applied once and none after a later one. */
  lemma {:induction false} InsertedOnceInOrder(was: map<string, int>, batches: seq<seq<Item>>)
    ensures ConvAscending(InsertLog(was, batches))
    ensures forall x :: x in InsertLog(was, batches) ==> x.num <= SeenOf(AdvancedAll(was, batches), x.conv)
    decreases |batches|
  {
    if batches != [] {
      var init, batch := batches[..|batches| - 1], batches[|batches| - 1];
      var cursors := AdvancedAll(was, init);
      InsertedOnceInOrder(was, init);
      InsertsFrom(cursors, batch);
      forall x | x in InsertLog(was, batches) ensures x.num <= SeenOf(AdvancedAll(was, batches), x.conv) {
        AdvancedCovers(cursors, batch, x.conv);
      }
      ConvAscendingAppend(InsertLog(was, init), Inserts(cursors, batch), cursors);
    }
  }

  lemma ConvAscendingAppend(a: seq<Item>, b: seq<Item>, cursors: map<string, int>)
    requires ConvAscending(a) && ConvAscending(b)
    requires forall x :: x in a ==> x.num <= SeenOf(cursors, x.conv)
    requires forall x :: x in b ==> x.num > SeenOf(cursors, x.conv)
    ensures ConvAscending(a + b)
  {
    var all := a + b;
    forall i, j | 0 <= i < j < |all| && all[i].conv == all[j].conv ensures all[i].num < all[j].num {
      if i < |a| <= j { assert all[i] in a && all[j] in b; }
    }
  }

  // ------------------------------------------------------------ local writes

  /** The store over the local database, which may fail at any write. */
  class MessageStore {
    var cursors: map<string, int>
    var disk: map<string, int>
    var persisted: set<Item>

    /** Plans a batch, then writes messages, overlays and cursor rows one by one; `good` writes work
        and the next one throws. Only a batch written whole returns its watermark for the ack, but the
        cursors in memory have moved in any case. */
    method PersistInboxBatch(items: seq<Item>, order: seq<Item>, good: nat)
        returns (ok: bool, watermark: map<string, int>, plan: seq<Item>, noted: set<string>)
      requires ByNum(order) && (forall x :: x in items <==> x in order)
      modifies this
      ensures cursors == Advanced(old(cursors), items)
      ensures watermark == Watermark(cursors, items)
      ensures OneItemPerKey(items) ==> Elements(plan) == Fresh(old(cursors), items)
      ensures persisted == old(persisted) + Elements(plan[..if good < |plan| then good else |plan|])
      ensures disk == Noted(old(disk), watermark, noted) && noted <= watermark.Keys
      ensures noted != {} ==> |plan| < good
      ensures ok <==> |plan| + |watermark| <= good
      ensures ok ==> noted == watermark.Keys
    {
      var inserts, overlays;
      inserts, overlays, watermark, cursors := PlanInboxBatch(items, order, cursors);
      plan, noted := inserts + overlays, {};
      var n := WriteItems(plan, good);
      assert Noted(disk, watermark, {}) == disk;
      if n < |plan| { return false, watermark, plan, noted; }
      noted := WriteCursors(watermark, good - n);
      ok := |noted| == |watermark|;
      if ok { SubsetOfSameSize(noted, watermark.Keys); }
    }

    method WriteItems(plan: seq<Item>, good: nat) returns (n: nat)
      modifies this`persisted
      ensures n == if good < |plan| then good else |plan|
      ensures persisted == old(persisted) + Elements(plan[..n])
    {
      n := 0;
      while n < |plan| && n < good
        invariant n <= |plan| && n <= good
        invariant persisted == old(persisted) + Elements(plan[..n])
      {
        assert plan[..n + 1] == plan[..n] + [plan[n]];
        persisted := persisted + {plan[n]};
        n := n + 1;
      }
    }

    method WriteCursors(watermark: map<string, int>, good: nat) returns (noted: set<string>)
      modifies this`disk
      ensures noted <= watermark.Keys && |noted| == if good < |watermark| then good else |watermark|
      ensures disk == Noted(old(disk), watermark, noted)
    {
      noted := {};
      var left := watermark.Keys;
      while left != {} && |noted| < good
        invariant left + noted == watermark.Keys && left !! noted
        invariant |noted| + |left| == |watermark| && |noted| <= good
        invariant disk == Noted(old(disk), watermark, noted)
        decreases |left|
      {
        var conv :| conv in left;
        NotedOne(old(disk), watermark, noted, left, conv);
        disk := disk[conv := watermark[conv]];
        noted := noted + {conv};
        left := left - {conv};
      }
    }
  }

  /** One more cursor row. */
  lemma NotedOne(disk: map<string, int>, watermark: map<string, int>, noted: set<string>, left: set<string>, conv: string)
    requires conv in left && left !! noted && left + noted == watermark.Keys
    ensures Noted(disk, watermark, noted)[conv := watermark[conv]] == Noted(disk, watermark, noted + {conv})
    ensures (left - {conv}) + (noted + {conv}) == watermark.Keys && (left - {conv}) !! (noted + {conv})
    ensures |noted + {conv}| + |left - {conv}| == |noted| + |left|
  {
    var more := noted + {conv};
    var a, b := Noted(disk, watermark, noted)[conv := watermark[conv]], Noted(disk, watermark, more);
    forall c ensures c in a <==> c in b {}
    forall c | c in a ensures a[c] == b[c] {}
  }

  lemma SubsetOfSameSize(a: set<string>, b: set<string>)
    requires a <= b && |a| == |b|
    ensures a == b
  {
    assert b == a + (b - a);
  }

  /** `valid := upTo[:0]`: drop cursors with no conversation or no positive seq, in place. */
  method ValidCursors(upTo: array<(string, int)>) returns (n: nat)
    modifies upTo
    ensures n <= upTo.Length
    ensures upTo[..n] == WellFormed(old(upTo[..]))
  {
    n := 0;
    ghost var was := upTo[..];
    for i := 0 to upTo.Length
      invariant n <= i
      invariant upTo[..n] == WellFormed(was[..i])
      invariant forall m :: i <= m < upTo.Length ==> upTo[m] == was[m]
    {
      var c := upTo[i];
      WellFormedSnoc(was[..i], c);
      assert was[..i + 1] == was[..i] + [c];
      if c.0 != "" && c.1 > 0 {
        upTo[n] := c;
        n := n + 1;
        assert upTo[..n] == upTo[..n - 1] + [c];
      }
    }
    assert was[..|was|] == was;
  }

  lemma WellFormedSnoc(upTo: seq<(string, int)>, c: (string, int))
    ensures WellFormed(upTo + [c]) == WellFormed(upTo) + if c.0 != "" && c.1 > 0 then [c] else []
  {
    assert (upTo + [c])[..|upTo|] == upTo;
  }

  function WellFormed(upTo: seq<(string, int)>): seq<(string, int)> {
    if upTo == [] then []
    else WellFormed(upTo[..|upTo| - 1])
         + if upTo[|upTo| - 1].0 != "" && upTo[|upTo| - 1].1 > 0 then [upTo[|upTo| - 1]] else []
  }

  predicate IsWellFormed(c: (string, int)) {
    c.0 != "" && c.1 > 0
  }

  lemma {:induction false} WellFormedAppend(a: seq<(string, int)>, b: seq<(string, int)>)
    ensures WellFormed(a + b) == WellFormed(a) + WellFormed(b)
    decreases |b|
  {
    if b == [] {
      assert a + b == a;
    } else {
      var init, c := b[..|b| - 1], b[|b| - 1];
      WellFormedAppend(a, init);
      WellFormedSnoc(a + init, c);
      WellFormedSnoc(init, c);
      assert (a + init) + [c] == a + b && init + [c] == b;
    }
  }

  /** The filter keeps a cursor exactly if it names a conversation and a positive number, and treats each on
      its own: what stays of a list is what stays of its parts, in order. */
  lemma WellFormedMeans(a: seq<(string, int)>, b: seq<(string, int)>, c: (string, int))
    ensures WellFormed(a + b) == WellFormed(a) + WellFormed(b)
    ensures WellFormed([c]) == if IsWellFormed(c) then [c] else []
  {
    WellFormedAppend(a, b);
    WellFormedSnoc([], c);
    assert [] + [c] == [c];
  }
}
