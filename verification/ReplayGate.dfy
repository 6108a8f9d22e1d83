/** The gate that merges a connection's inbox replay with its live traffic. */
module ReplayGate {
  import opened Items
  import opened StableSort

  const MAX_REPLAY_BUFFER: nat := 1024

  /** A gate's value: open, its per-conversation replay watermark, the live items held.
      `freed` is the watermark map after `finish` dropped it. */
  datatype GateState = GateState(open: bool, freed: bool, seen: map<string, int>, buffered: seq<Item>)

  function NewGate(open: bool): GateState {
    GateState(open, false, map[], [])
  }

  /** A missing watermark reads as zero. */
  function SeenOf(seen: map<string, int>, conv: string): int {
    if conv in seen then seen[conv] else 0
  }

  /** What happens to one live item. */
  datatype Hold = Forward | Buffer | Overflow

  function HoldOf(g: GateState): Hold {
    if g.open then Forward else if |g.buffered| >= MAX_REPLAY_BUFFER then Overflow else Buffer
  }

  function Held(g: GateState, item: Item): GateState {
    if HoldOf(g) == Buffer then g.(buffered := g.buffered + [item]) else g
  }

  function Advanced(seen: map<string, int>, items: seq<Item>): map<string, int> {
    if items == [] then seen
    else
      var before := Advanced(seen, items[..|items| - 1]);
      var it := items[|items| - 1];
      if it.num > SeenOf(before, it.conv) then before[it.conv := it.num] else before
  }

  /** The compaction walk: skip what the watermark covers, raise it past what is kept. */
  function Compacted(s: seq<Item>, seen: map<string, int>): seq<Item> {
    if s == [] then []
    else if s[0].num <= SeenOf(seen, s[0].conv) then Compacted(s[1..], seen)
    else [s[0]] + Compacted(s[1..], seen[s[0].conv := s[0].num])
  }

  function SeenAfter(s: seq<Item>, seen: map<string, int>): map<string, int> {
    if s == [] then seen
    else if s[0].num <= SeenOf(seen, s[0].conv) then SeenAfter(s[1..], seen)
    else SeenAfter(s[1..], seen[s[0].conv := s[0].num])
  }

  /** The items a flush hands over. */
  function Flushed(g: GateState): seq<Item> {
    Compacted(Sort(g.buffered), g.seen)
  }

  ghost predicate FirstOfKey(s: seq<Item>, x: Item) {
    WithKey(s, x) != [] && WithKey(s, x)[0] == x
  }

  /** What a flush should be, said without sorting or walking: in strict (conversation, seq)
      order; the first arrival of each key held; only keys above the watermark, and all of them. */
  ghost predicate FlushOf(r: seq<Item>, buffered: seq<Item>, seen: map<string, int>) {
    && Ascending(r)
    && (forall x :: x in r ==> x.num > SeenOf(seen, x.conv))
    && (forall x :: x in r ==> FirstOfKey(buffered, x))
    && (forall x :: x in buffered && x.num > SeenOf(seen, x.conv) ==> exists y :: y in r && SameKey(x, y))
  }

  // ---------------------------------------------------------------- watermark

  lemma {:induction false} AdvancedCovers(seen: map<string, int>, items: seq<Item>, conv: string)
    ensures SeenOf(Advanced(seen, items), conv) >= SeenOf(seen, conv)
    ensures forall x :: x in items && x.conv == conv ==> x.num <= SeenOf(Advanced(seen, items), conv)
    ensures SeenOf(Advanced(seen, items), conv) == SeenOf(seen, conv)
         || exists x :: x in items && x.conv == conv && x.num == SeenOf(Advanced(seen, items), conv)
  {
    if items != [] {
      AdvancedCovers(seen, items[..|items| - 1], conv);
      assert items == items[..|items| - 1] + [items[|items| - 1]];
      assert items[|items| - 1] in items;
    }
  }

  // ------------------------------------------------------------------- flush

  lemma {:induction false} WithKeyCons(x: Item, s: seq<Item>, k: Item)
    ensures WithKey([x] + s, k) == (if SameKey(x, k) then [x] else []) + WithKey(s, k)
  {
    if s == [] {
      assert [x] + s == [] + [x];
      WithKeySnoc([], x, k);
    } else {
      var init, top := s[..|s| - 1], s[|s| - 1];
      WithKeyCons(x, init, k);
      assert [x] + s == ([x] + init) + [top];
      WithKeySnoc([x] + init, top, k);
    }
  }

  /** Kept items come from `s`, stand above the watermark, and ascend. */
  lemma {:induction false} CompactedAscends(s: seq<Item>, seen: map<string, int>)
    requires Sorted(s)
    ensures Ascending(Compacted(s, seen))
    ensures forall y :: y in Compacted(s, seen) ==> y in s && y.num > SeenOf(seen, y.conv)
  {
    if s != [] {
      var x, rest := s[0], s[1..];
      var covered := x.num <= SeenOf(seen, x.conv);
      var seen' := if covered then seen else seen[x.conv := x.num];
      var r := Compacted(rest, seen');
      CompactedAscends(rest, seen');
      forall i | 0 <= i < |r|
        ensures r[i] in s && r[i].num > SeenOf(seen, r[i].conv)
        ensures !covered ==> Less(x, r[i])
      {
        var y := r[i];
        assert y in r;
        var m :| 0 <= m < |rest| && rest[m] == y;
        assert s[m + 1] == y && !Less(y, x);
        LessTotal(x, y);
      }
    }
  }

  /** A kept item is the first of its key. */
  lemma {:induction false} CompactedFirst(s: seq<Item>, seen: map<string, int>, y: Item)
    requires Sorted(s) && y in Compacted(s, seen)
    ensures FirstOfKey(s, y)
  {
    var x, rest := s[0], s[1..];
    assert s == [x] + rest;
    WithKeyCons(x, rest, y);
    if x.num <= SeenOf(seen, x.conv) {
      CompactedAscends(rest, seen);
      CompactedFirst(rest, seen, y);
    } else {
      var seen' := seen[x.conv := x.num];
      CompactedAscends(rest, seen');
      if y in Compacted(rest, seen') {
        CompactedFirst(rest, seen', y);
      }
    }
  }

  /** Whatever stands above the watermark has its key kept. */
  lemma {:induction false} CompactedKeeps(s: seq<Item>, seen: map<string, int>, y: Item)
    requires Sorted(s) && y in s && y.num > SeenOf(seen, y.conv)
    ensures exists z :: z in Compacted(s, seen) && SameKey(y, z)
  {
    var x, rest := s[0], s[1..];
    assert s == [x] + rest;
    if x.num <= SeenOf(seen, x.conv) {
      CompactedKeeps(rest, seen, y);
    } else {
      var seen' := seen[x.conv := x.num];
      assert x in Compacted(s, seen);
      if y.num > SeenOf(seen', y.conv) {
        CompactedKeeps(rest, seen', y);
        var z :| z in Compacted(rest, seen') && SameKey(y, z);
        assert z in Compacted(s, seen);
      } else {
        var m :| 0 <= m < |s| && s[m] == y;
        LessTotal(x, x);
        assert !Less(y, x);
      }
    }
  }

  /** The sort-and-compact of `finish` yields exactly the flush that should be. */
  lemma FlushedMeans(g: GateState)
    ensures FlushOf(Flushed(g), g.buffered, g.seen)
  {
    var s := Sort(g.buffered);
    SortIsStable(g.buffered);
    CompactedAscends(s, g.seen);
    forall x | x in g.buffered && x.num > SeenOf(g.seen, x.conv)
      ensures exists y :: y in Flushed(g) && SameKey(x, y)
    {
      CompactedKeeps(s, g.seen, x);
    }
    forall x | x in Flushed(g)
      ensures FirstOfKey(g.buffered, x)
    {
      CompactedFirst(s, g.seen, x);
      assert WithKey(g.buffered, x) == WithKey(s, x);
    }
  }

  lemma {:induction false} SameKeySameItems(s: seq<Item>, x: Item, y: Item)
    requires SameKey(x, y)
    ensures WithKey(s, x) == WithKey(s, y)
  {
    if s != [] { SameKeySameItems(s[..|s| - 1], x, y); }
  }

  lemma FlushMember(r: seq<Item>, t: seq<Item>, buffered: seq<Item>, seen: map<string, int>, x: Item)
    requires FlushOf(r, buffered, seen) && FlushOf(t, buffered, seen) && x in r
    ensures x in t
  {
    assert FirstOfKey(buffered, x);
    assert x in WithKey(buffered, x);
    WithKeyMember(buffered, x);
    var y :| y in t && SameKey(x, y);
    assert FirstOfKey(buffered, y);
    SameKeySameItems(buffered, x, y);
  }

  lemma SomeMember(s: seq<Item>) returns (x: Item)
    requires s != []
    ensures x in s
  {
    x := s[0];
  }

  lemma {:induction false} AscendingUnique(r: seq<Item>, t: seq<Item>)
    requires Ascending(r) && Ascending(t) && forall x :: x in r <==> x in t
    ensures r == t
  {
    if r == [] {
      if t != [] {
        var _ := SomeMember(t);
        assert false;
      }
    } else {
      var x := r[|r| - 1];
      assert x in r && x in t;
      var y := t[|t| - 1];
      assert y in t && y in r;
      LessTotal(x, y);
      LessTotal(x, x);
      assert x == y;
      var r', t' := r[..|r| - 1], t[..|t| - 1];
      forall z ensures z in r' <==> z in t' {
        assert z in r' ==> z in r && z != x;
        assert z in t' ==> z in t && z != x;
      }
      AscendingUnique(r', t');
      assert r == r' + [x] && t == t' + [x];
    }
  }

  /** FlushOf leaves no choice: it has one solution. */
  lemma FlushUnique(r: seq<Item>, t: seq<Item>, buffered: seq<Item>, seen: map<string, int>)
    requires FlushOf(r, buffered, seen) && FlushOf(t, buffered, seen)
    ensures r == t
  {
    forall x ensures x in r <==> x in t {
      if x in r { FlushMember(r, t, buffered, seen, x); }
      if x in t { FlushMember(t, r, buffered, seen, x); }
    }
    AscendingUnique(r, t);
  }

  /** The rest of the walk, with `front` kept so far, before and after item `i`. */
  ghost predicate Remaining(front: seq<Item>, rest: seq<Item>, seen: map<string, int>, goal: seq<Item>, end: map<string, int>) {
    front + Compacted(rest, seen) == goal && SeenAfter(rest, seen) == end
  }

  lemma CompactStep(front: seq<Item>, s: seq<Item>, i: nat, seen: map<string, int>, goal: seq<Item>, end: map<string, int>)
    requires i < |s| && Remaining(front, s[i..], seen, goal, end)
    ensures
      if s[i].num > SeenOf(seen, s[i].conv)
      then Remaining(front + [s[i]], s[i + 1..], seen[s[i].conv := s[i].num], goal, end)
      else Remaining(front, s[i + 1..], seen, goal, end)
  {
    assert s[i..][0] == s[i] && s[i..][1..] == s[i + 1..];
    var rest := Compacted(s[i + 1..], seen[s[i].conv := s[i].num]);
    assert front + ([s[i]] + rest) == (front + [s[i]]) + rest;
  }

  // ------------------------------------------------------------------- class

  class Gate {
    var open: bool
    var freed: bool
    var seen: map<string, int>
    const cells: array<Item>
    var count: nat

    ghost predicate Valid()
      reads this
    {
      cells.Length == MAX_REPLAY_BUFFER && count <= MAX_REPLAY_BUFFER
    }

    ghost function State(): GateState
      requires Valid()
      reads this, cells
    {
      GateState(open, freed, seen, cells[..count])
    }

    constructor (open: bool)
      ensures Valid() && fresh(cells)
      ensures State() == NewGate(open)
    {
      this.open, freed, seen, count := open, false, map[], 0;
      cells := new Item[MAX_REPLAY_BUFFER](_ => Item("", 0, "", false));
    }

    method HoldLive(item: Item) returns (deliver: bool, overflow: bool)
      requires Valid()
      modifies this`count, cells
      ensures Valid()
      ensures deliver <==> HoldOf(old(State())) == Forward
      ensures overflow <==> HoldOf(old(State())) == Overflow
      ensures State() == Held(old(State()), item)
    {
      if open {
        return true, false;
      }
      if count >= MAX_REPLAY_BUFFER {
        return false, true;
      }
      cells[count] := item;
      count := count + 1;
      return false, false;
    }

    /** Records a replayed batch. Writing to a freed watermark map would panic. */
    method Advance(items: seq<Item>)
      requires Valid() && !freed
      modifies this`seen
      ensures Valid()
      ensures State() == old(State()).(seen := Advanced(old(seen), items))
    {
      for i := 0 to |items|
        invariant seen == Advanced(old(seen), items[..i])
      {
        var it := items[i];
        assert items[..i + 1][..i] == items[..i];
        if it.num > SeenOf(seen, it.conv) {
          seen := seen[it.conv := it.num];
        }
      }
      assert items[..|items|] == items;
    }

    /** Sorts and compacts the buffer in place and hands the rest to the outbound queue, which
        answers `room`. A refused flush leaves the gate closed over the overwritten buffer. */
    method Finish(room: bool) returns (ok: bool, pending: seq<Item>)
      requires Valid()
      modifies this`open, this`freed, this`seen, this`count, cells
      ensures Valid()
      ensures pending == Flushed(old(State()))
      ensures ok <==> pending == [] || room
      ensures ok ==> State() == GateState(true, true, map[], [])
      ensures !ok ==>
        var sorted := Sort(old(State()).buffered);
        && |pending| <= |sorted|
        && State() == GateState(old(open), old(freed), SeenAfter(sorted, old(seen)), pending + sorted[|pending|..])
    {
      SortInPlace(cells, count);
      ghost var sorted := cells[..count];
      var kept;
      kept, seen := Compact(cells, count, seen);
      pending := cells[..kept];
      assert cells[..count] == pending + cells[kept..count];
      assert sorted[kept..] == cells[kept..count];
      if pending != [] && !room {
        return false, pending;
      }
      open, freed, seen, count := true, true, map[], 0;
      ok := true;
    }
  }

  /** Overwrites the front of the first `n` cells with the items to keep. */
  method Compact(a: array<Item>, n: nat, was: map<string, int>) returns (kept: nat, seen: map<string, int>)
    requires n <= a.Length
    modifies a
    ensures kept <= n
    ensures a[..kept] == Compacted(old(a[..n]), was) && seen == SeenAfter(old(a[..n]), was)
    ensures a[kept..n] == old(a[kept..n])
  {
    ghost var sorted := a[..n];
    ghost var goal, end := Compacted(sorted, was), SeenAfter(sorted, was);
    kept, seen := 0, was;
    ghost var front: seq<Item> := [];
    assert sorted[0..] == sorted;
    for i := 0 to n
      invariant kept <= i && |front| == kept
      invariant forall m :: 0 <= m < kept ==> a[m] == front[m]
      invariant forall m :: kept <= m < n ==> a[m] == sorted[m]
      invariant Remaining(front, sorted[i..], seen, goal, end)
    {
      var it := a[i];
      CompactStep(front, sorted, i, seen, goal, end);
      if it.num > SeenOf(seen, it.conv) {
        seen := seen[it.conv := it.num];
        a[kept] := it;
        kept := kept + 1;
        front := front + [it];
      }
    }
    assert sorted[n..] == [];
    assert a[..kept] == front;
    assert a[kept..n] == sorted[kept..] by {
      assert forall m :: 0 <= m < n - kept ==> a[kept..n][m] == a[kept + m] == sorted[kept..][m];
    }
  }

  // -------------------------------------------------------- every interleaving

  /** The calls a connection's goroutines make on its gate, and whether the outbound queue had room. */
  datatype Event = Live(item: Item, room: bool) | Batch(items: seq<Item>, room: bool) | Finish(room: bool)

  /** The gate, what the outbound queue accepted so far, and whether the connection was closed as slow. */
  datatype Feed = Feed(gate: GateState, sent: seq<Item>, closed: bool)

  function Fed(f: Feed, e: Event): Feed {
    if f.closed then f
    else match e
      case Live(item, room) =>
        (match HoldOf(f.gate)
         case Forward => if room then f.(sent := f.sent + [item]) else f.(closed := true)
         case Buffer => f.(gate := Held(f.gate, item))
         case Overflow => f.(closed := true))
      case Batch(items, room) =>
        var g := f.gate.(seen := Advanced(f.gate.seen, items));
        if room then f.(gate := g, sent := f.sent + items) else f.(gate := g, closed := true)
      case Finish(room) =>
        var pending := Flushed(f.gate);
        if pending == [] || room then Feed(GateState(true, true, map[], []), f.sent + pending, false)
        else f.(closed := true)
  }

  function FedAll(f: Feed, es: seq<Event>): Feed
    decreases |es|
  {
    if es == [] then f else FedAll(Fed(f, es[0]), es[1..])
  }

  /** One replay goroutine: batches continue the ascending scan, and stop once it finished.
      After that a live item must exceed what its conversation already sent. */
  ghost predicate Orderly(f: Feed, e: Event) {
    f.closed ||
    match e
    case Live(item, _) => f.gate.open ==> Exceeds(f.sent, item)
    case Batch(items, _) => !f.gate.open && Ascending(f.sent + items)
    case Finish(_) => !f.gate.open
  }

  ghost predicate Exceeds(sent: seq<Item>, item: Item) {
    forall x :: x in sent && x.conv == item.conv ==> x.num < item.num
  }

  ghost predicate OrderlyAll(f: Feed, es: seq<Event>)
    decreases |es|
  {
    es != [] ==> Orderly(f, es[0]) && OrderlyAll(Fed(f, es[0]), es[1..])
  }

  ghost predicate FeedInv(f: Feed) {
    && ConvAscending(f.sent)
    && |f.gate.buffered| <= MAX_REPLAY_BUFFER
    && (!f.gate.open && !f.closed ==> forall x :: x in f.sent ==> x.num <= SeenOf(f.gate.seen, x.conv))
  }

  lemma FlushExtends(f: Feed)
    requires FeedInv(f) && !f.gate.open && !f.closed
    ensures ConvAscending(f.sent + Flushed(f.gate))
  {
    FlushedMeans(f.gate);
    var p := Flushed(f.gate);
    var all := f.sent + p;
    forall i, j | 0 <= i < j < |all| && all[i].conv == all[j].conv ensures all[i].num < all[j].num {
      if i < |f.sent| <= j {
        assert all[i] in f.sent && all[j] in p;
      } else if |f.sent| <= i {
        assert Less(p[i - |f.sent|], p[j - |f.sent|]);
      }
    }
  }

  lemma FedKeepsInv(f: Feed, e: Event)
    requires FeedInv(f) && Orderly(f, e)
    ensures FeedInv(Fed(f, e))
  {
    if !f.closed {
      match e
      case Live(item, room) =>
        if f.gate.open && room { AppendExceeding(f.sent, item); }
      case Batch(items, room) =>
        forall x | x in f.sent + items ensures x.num <= SeenOf(Advanced(f.gate.seen, items), x.conv) {
          AdvancedCovers(f.gate.seen, items, x.conv);
        }
        assert ConvAscending(f.sent + items) by {
          var all := f.sent + items;
          forall i, j | 0 <= i < j < |all| && all[i].conv == all[j].conv ensures all[i].num < all[j].num {
            assert Less(all[i], all[j]);
          }
        }
      case Finish(room) =>
        FlushExtends(f);
    }
  }

  lemma AppendExceeding(sent: seq<Item>, item: Item)
    requires ConvAscending(sent)
    ensures ConvAscending(sent + [item]) <==> Exceeds(sent, item)
  {
    var all := sent + [item];
    if ConvAscending(all) {
      forall x | x in sent && x.conv == item.conv ensures x.num < item.num {
        var i :| 0 <= i < |sent| && sent[i] == x;
        assert all[i] == x && all[|sent|] == item;
      }
    } else {
      var i, j :| 0 <= i < j < |all| && all[i].conv == all[j].conv && all[i].num >= all[j].num;
      assert j == |sent|;
      assert all[i] in sent;
    }
  }

  /** Replay/live interleave: whatever the order of live arrivals, replay batches and the flush,
      what reaches the outbound queue is strictly increasing per conversation, so no
      (conversation, seq) twice, and the buffer never outgrows its bound. */
  lemma {:induction false} InterleaveKeepsOrder(f: Feed, es: seq<Event>)
    requires FeedInv(f) && OrderlyAll(f, es)
    ensures FeedInv(FedAll(f, es))
    decreases |es|
  {
    if es != [] {
      FedKeepsInv(f, es[0]);
      InterleaveKeepsOrder(Fed(f, es[0]), es[1..]);
    }
  }

  /** The condition on live items after opening is exact: an item at or below what its
      conversation already sent breaks the order, because the freed gate no longer filters. */
  lemma OpenGateOrderExact(f: Feed, item: Item)
    requires FeedInv(f) && f.gate.open && !f.closed
    ensures ConvAscending(Fed(f, Live(item, true)).sent) <==> Exceeds(f.sent, item)
  {
    AppendExceeding(f.sent, item);
  }

  /** A duplicate that arrives after the flush goes out twice. */
  lemma DuplicateAfterOpening()
    ensures
      var x := Item("c", 1, "m", false);
      var es := [Live(x, true), Finish(true), Live(x, true)];
      FedAll(Feed(NewGate(false), [], false), es).sent == [x, x]
  {
    var x := Item("c", 1, "m", false);
    var f0 := Feed(NewGate(false), [], false);
    var f1 := Fed(f0, Live(x, true));
    assert f1.gate.buffered == [x];
    assert [x][..0] == [] && Sort([]) == [];
    assert Sort([x]) == [x];
    assert Flushed(f1.gate) == [x];
    var f2 := Fed(f1, Finish(true));
    var f3 := Fed(f2, Live(x, true));
    var es := [Live(x, true), Finish(true), Live(x, true)];
    assert es[1..] == [Finish(true), Live(x, true)] && es[1..][1..] == [Live(x, true)];
    assert FedAll(f2, [Live(x, true)]) == FedAll(f3, []);
  }

  // ------------------------------------------------- what a closed gate takes in

  /** The live items of a run, in arrival order. */
  function LivesOf(es: seq<Event>): seq<Item> {
    if es == [] then [] else (if es[0].Live? then [es[0].item] else []) + LivesOf(es[1..])
  }

  /** The replayed rows of a run, in order. */
  function RowsOf(es: seq<Event>): seq<Item> {
    if es == [] then [] else (if es[0].Batch? then es[0].items else []) + RowsOf(es[1..])
  }

  /** Before the replay is over: live items and batches the queue had room for. */
  ghost predicate BeforeFinish(es: seq<Event>) {
    forall i :: 0 <= i < |es| ==> es[i].Live? || (es[i].Batch? && es[i].room)
  }

  /** `f'` is `f` after a closed gate took in `lives` and the queue `rows`. */
  ghost predicate TookIn(f: Feed, f': Feed, lives: seq<Item>, rows: seq<Item>) {
    && !f'.closed && !f'.gate.open && f'.gate.freed == f.gate.freed
    && f'.gate.buffered == f.gate.buffered + lives && f'.sent == f.sent + rows
  }

  lemma TookInAppend(f: Feed, f1: Feed, f2: Feed, l1: seq<Item>, r1: seq<Item>, l2: seq<Item>, r2: seq<Item>)
    requires TookIn(f, f1, l1, r1) && TookIn(f1, f2, l2, r2)
    ensures TookIn(f, f2, l1 + l2, r1 + r2)
  {
  }

  /** A closed gate holds every live item, in arrival order, as long as there are no more than 1024;
      meanwhile the queue receives the replayed rows and nothing else. */
  lemma {:induction false} ClosedGateHoldsAll(f: Feed, es: seq<Event>)
    requires !f.closed && !f.gate.open && BeforeFinish(es) && |f.gate.buffered| + |LivesOf(es)| <= 1024
    ensures TookIn(f, FedAll(f, es), LivesOf(es), RowsOf(es))
    decreases |es|
  {
    if es != [] {
      assert es[0].Live? || (es[0].Batch? && es[0].room);
      assert forall i :: 0 <= i < |es[1..]| ==> es[1..][i] == es[i + 1];
      var f1 := Fed(f, es[0]);
      var lives, rows := if es[0].Live? then [es[0].item] else [], if es[0].Batch? then es[0].items else [];
      assert TookIn(f, f1, lives, rows);
      ClosedGateHoldsAll(f1, es[1..]);
      TookInAppend(f, f1, FedAll(f, es), lives, rows, LivesOf(es[1..]), RowsOf(es[1..]));
    }
  }

  /** From a new gate: up to 1024 live items are held and the connection stays; the next one ends it. */
  lemma HoldsExactly1024(es: seq<Event>, item: Item, room: bool)
    requires BeforeFinish(es) && |LivesOf(es)| <= 1024
    ensures
      var f := FedAll(Feed(NewGate(false), [], false), es);
      && !f.closed && !f.gate.freed && f.gate.buffered == LivesOf(es) && f.sent == RowsOf(es)
      && (Fed(f, Live(item, room)).closed <==> |LivesOf(es)| == 1024)
      && (|LivesOf(es)| == 1024 ==> Held(f.gate, item) == f.gate)
  {
    ClosedGateHoldsAll(Feed(NewGate(false), [], false), es);
    assert [] + LivesOf(es) == LivesOf(es) && [] + RowsOf(es) == RowsOf(es);
  }

  /** An open gate holds nothing: every live item goes straight to the queue, and a full queue ends the
      connection. */
  lemma OpenGateForwards(f: Feed, item: Item, room: bool)
    requires !f.closed && f.gate.open
    ensures Fed(f, Live(item, room)) == if room then f.(sent := f.sent + [item]) else f.(closed := true)
    ensures Held(f.gate, item) == f.gate
  {
  }

  /** What ends the connection: a full queue when there is something to send, or a live item too many. A
      finish without a held item above the watermark needs no room. */
  lemma ClosesExactly(f: Feed, e: Event)
    requires !f.closed
    ensures Fed(f, e).closed <==> match e
      case Live(_, room) => if f.gate.open then !room else |f.gate.buffered| >= 1024
      case Batch(_, room) => !room
      case Finish(room) => !room && exists x :: x in f.gate.buffered && x.num > SeenOf(f.gate.seen, x.conv)
  {
    FlushedMeans(f.gate);
    var p := Flushed(f.gate);
    if p != [] {
      assert p[0] in p;
      FirstIsMember(f.gate.buffered, p[0]);
    }
  }

  lemma FirstIsMember(s: seq<Item>, x: Item)
    requires FirstOfKey(s, x)
    ensures x in s
  {
    WithKeyMember(s, x);
  }

  /** A finish the queue had room for opens the gate for good, with nothing held and no watermark. */
  lemma FinishOpens(f: Feed, es: seq<Event>)
    requires !f.closed
    ensures
      var f' := Fed(f, Finish(true));
      !f'.closed && f'.gate == GateState(true, true, map[], []) && f'.sent == f.sent + Flushed(f.gate)
    ensures FedAll(Fed(f, Finish(true)), es).gate.open
  {
    OpenStaysOpen(Fed(f, Finish(true)), es);
  }

  lemma {:induction false} OpenStaysOpen(f: Feed, es: seq<Event>)
    requires f.gate.open
    ensures FedAll(f, es).gate.open
    decreases |es|
  {
    if es != [] { OpenStaysOpen(Fed(f, es[0]), es[1..]); }
  }

  /** The watermark a flush leaves is the one the items it walked over would have given. */
  lemma {:induction false} WalkedWatermark(s: seq<Item>, seen: map<string, int>, conv: string)
    ensures SeenOf(SeenAfter(s, seen), conv) >= SeenOf(seen, conv)
    ensures forall x :: x in s && x.conv == conv ==> x.num <= SeenOf(SeenAfter(s, seen), conv)
    ensures SeenOf(SeenAfter(s, seen), conv) == SeenOf(seen, conv)
         || exists x :: x in s && x.conv == conv && x.num == SeenOf(SeenAfter(s, seen), conv)
    decreases |s|
  {
    if s != [] {
      var seen' := if s[0].num <= SeenOf(seen, s[0].conv) then seen else seen[s[0].conv := s[0].num];
      WalkedWatermark(s[1..], seen', conv);
      assert s[0] in s && s == [s[0]] + s[1..];
    }
  }
}
