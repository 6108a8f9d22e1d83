/** The pod's connection registry: 256 independently locked shards that must behave as one map from
    device to its live connection. */
module Registry {
  import opened Ports
  import opened Fnv

  datatype Device = Device(id: seq<bv8>)

  /** A connection; `serial` stands for its identity. */
  datatype Conn = Conn(serial: nat, device: Device)

  const SHARDS: nat := 256

  function ShardOf(d: Device): (k: nat)
    ensures k < SHARDS
  {
    Fnv1a(d.id) as nat % SHARDS
  }

  // ------------------------------------------------------ shards as one map

  /** Every entry lies in the shard of its device and under its own device. */
  ghost predicate Placed(shards: seq<map<Device, Conn>>) {
    forall i, d :: 0 <= i < |shards| && d in shards[i] ==> ShardOf(d) == i && shards[i][d].device == d
  }

  ghost function Merged(shards: seq<map<Device, Conn>>): map<Device, Conn> {
    if shards == [] then map[] else Merged(shards[..|shards| - 1]) + shards[|shards| - 1]
  }

  function TotalSize(shards: seq<map<Device, Conn>>): nat {
    if shards == [] then 0 else TotalSize(shards[..|shards| - 1]) + |shards[|shards| - 1]|
  }

  lemma {:induction false} MergedLookup(shards: seq<map<Device, Conn>>, d: Device)
    requires Placed(shards)
    ensures d in Merged(shards) <==> ShardOf(d) < |shards| && d in shards[ShardOf(d)]
    ensures d in Merged(shards) ==> Merged(shards)[d] == shards[ShardOf(d)][d]
    decreases |shards|
  {
    if shards != [] {
      var front := shards[..|shards| - 1];
      assert Placed(front);
      MergedLookup(front, d);
    }
  }

  lemma {:induction false} MergedSize(shards: seq<map<Device, Conn>>)
    requires Placed(shards)
    ensures |Merged(shards)| == TotalSize(shards)
    decreases |shards|
  {
    if shards != [] {
      var n := |shards| - 1;
      FrontApart(shards);
      MergedSize(shards[..n]);
      DisjointUnionSize(Merged(shards[..n]), shards[n]);
    }
  }

  lemma FrontApart(shards: seq<map<Device, Conn>>)
    requires Placed(shards) && shards != []
    ensures
      var front, last := shards[..|shards| - 1], shards[|shards| - 1];
      Placed(front) && forall d :: d in last ==> d !in Merged(front)
  {
    var n := |shards| - 1;
    var front := shards[..n];
    assert Placed(front);
    forall d | d in shards[n] ensures d !in Merged(front) {
      MergedLookup(front, d);
      assert ShardOf(d) == n;
    }
  }

  lemma DisjointUnionSize(a: map<Device, Conn>, b: map<Device, Conn>)
    requires forall d :: d in b ==> d !in a
    ensures |a + b| == |a| + |b|
  {
    assert (a + b).Keys == a.Keys + b.Keys;
    assert a.Keys !! b.Keys;
  }

  /** Changing the entry of one device in its own shard changes that entry of the one map. */
  lemma MergedPut(shards: seq<map<Device, Conn>>, c: Conn)
    requires Placed(shards) && |shards| == SHARDS
    ensures
      var k := ShardOf(c.device);
      var after := shards[k := shards[k][c.device := c]];
      Placed(after) && Merged(after) == Merged(shards)[c.device := c]
  {
    var k := ShardOf(c.device);
    var after := shards[k := shards[k][c.device := c]];
    assert Placed(after);
    forall d ensures d in Merged(after) <==> d in Merged(shards)[c.device := c] {
      MergedLookup(shards, d);
      MergedLookup(after, d);
    }
    forall d | d in Merged(after) ensures Merged(after)[d] == Merged(shards)[c.device := c][d] {
      MergedLookup(shards, d);
      MergedLookup(after, d);
    }
  }

  lemma MergedCut(shards: seq<map<Device, Conn>>, x: Device)
    requires Placed(shards) && |shards| == SHARDS
    ensures
      var k := ShardOf(x);
      var after := shards[k := shards[k] - {x}];
      Placed(after) && Merged(after) == Merged(shards) - {x}
  {
    var k := ShardOf(x);
    var after := shards[k := shards[k] - {x}];
    assert Placed(after);
    forall d ensures d in Merged(after) <==> d in Merged(shards) - {x} {
      MergedLookup(shards, d);
      MergedLookup(after, d);
    }
    forall d | d in Merged(after) ensures Merged(after)[d] == (Merged(shards) - {x})[d] {
      MergedLookup(shards, d);
      MergedLookup(after, d);
    }
  }

  // -------------------------------------------------- the one-map semantics

  function Lookup(live: map<Device, Conn>, d: Device): Option<Conn> {
    if d in live then Some(live[d]) else None
  }

  /** Adding makes `c` the device's connection, whatever was there. */
  function Added(live: map<Device, Conn>, c: Conn): map<Device, Conn> {
    live[c.device := c]
  }

  function DisplacedBy(live: map<Device, Conn>, c: Conn): Option<Conn> {
    if Lookup(live, c.device) == Some(c) then None else Lookup(live, c.device)
  }

  /** Removing is guarded: only the device's current connection goes. */
  function Removed(live: map<Device, Conn>, c: Conn): map<Device, Conn> {
    if Lookup(live, c.device) == Some(c) then live - {c.device} else live
  }

  class Registry {
    const shards: array<map<Device, Conn>>

    ghost predicate Valid()
      reads this, shards
    {
      shards.Length == SHARDS && Placed(shards[..])
    }

    /** The single map the shards stand for. */
    ghost function Live(): map<Device, Conn>
      reads this, shards
      requires Valid()
    {
      Merged(shards[..])
    }

    constructor ()
      ensures Valid() && fresh(shards) && Live() == map[]
    {
      shards := new map<Device, Conn>[SHARDS](_ => map[]);
      new;
      forall d ensures d !in Merged(shards[..]) { MergedLookup(shards[..], d); }
      assert Merged(shards[..]).Keys == {};
    }

    method Add(c: Conn) returns (displaced: Option<Conn>)
      requires Valid()
      modifies shards
      ensures Valid() && Live() == Added(old(Live()), c)
      ensures displaced == DisplacedBy(old(Live()), c)
    {
      MergedLookup(shards[..], c.device);
      MergedPut(shards[..], c);
      var k := ShardOf(c.device);
      var s := shards[k];
      ghost var was := shards[..];
      shards[k] := s[c.device := c];
      assert shards[..] == was[k := was[k][c.device := c]];
      displaced := if c.device in s && s[c.device] != c then Some(s[c.device]) else None;
    }

    method Remove(c: Conn) returns (removed: bool)
      requires Valid()
      modifies shards
      ensures Valid() && Live() == Removed(old(Live()), c)
      ensures removed <==> Lookup(old(Live()), c.device) == Some(c)
    {
      MergedLookup(shards[..], c.device);
      var k := ShardOf(c.device);
      var s := shards[k];
      if c.device !in s || s[c.device] != c { return false; }
      MergedCut(shards[..], c.device);
      ghost var was := shards[..];
      shards[k] := s - {c.device};
      assert shards[..] == was[k := was[k] - {c.device}];
      removed := true;
    }

    method Get(d: Device) returns (found: Option<Conn>)
      requires Valid()
      ensures found == Lookup(Live(), d)
    {
      MergedLookup(shards[..], d);
      var s := shards[ShardOf(d)];
      found := if d in s then Some(s[d]) else None;
    }

    method Count() returns (n: nat)
      requires Valid()
      ensures n == |Live()|
    {
      n := 0;
      for i := 0 to shards.Length
        invariant n == TotalSize(shards[..i])
      {
        assert shards[..i + 1][..i] == shards[..i];
        n := n + |shards[i]|;
      }
      assert shards[..shards.Length] == shards[..];
      MergedSize(shards[..]);
    }
  }

  // ------------------------------------------------- connection lifecycles

  /** A connection registers once; its cleanup runs at any later time, possibly again. */
  datatype Op = Register(conn: Conn) | Cleanup(conn: Conn)

  datatype Fates = Fates(live: map<Device, Conn>, added: set<Conn>, displaced: set<Conn>, removed: set<Conn>)

  const NOBODY: Fates := Fates(map[], {}, {}, {})

  function AsSet(o: Option<Conn>): set<Conn> {
    match o case None => {} case Some(c) => {c}
  }

  function Next(f: Fates, op: Op): Fates {
    match op
    case Register(c) =>
      Fates(Added(f.live, c), f.added + {c}, f.displaced + AsSet(DisplacedBy(f.live, c)), f.removed)
    case Cleanup(c) =>
      var gone := Lookup(f.live, c.device) == Some(c);
      Fates(Removed(f.live, c), f.added, f.displaced, if gone then f.removed + {c} else f.removed)
  }

  /** No connection registers twice. */
  predicate Legal(ops: seq<Op>) {
    forall i, j :: 0 <= i < j < |ops| && ops[i].Register? && ops[j].Register? ==> ops[i].conn != ops[j].conn
  }

  function After(ops: seq<Op>): Fates {
    if ops == [] then NOBODY else Next(After(ops[..|ops| - 1]), ops[|ops| - 1])
  }

  /** Every added connection has exactly one fate. */
  ghost predicate Conserved(f: Fates) {
    && (forall d :: d in f.live ==> f.live[d].device == d)
    && f.added == f.live.Values + f.displaced + f.removed
    && f.live.Values !! f.displaced && f.live.Values !! f.removed && f.displaced !! f.removed
  }

  lemma RegisterConserves(f: Fates, c: Conn)
    requires Conserved(f) && c !in f.added
    ensures Conserved(Next(f, Register(c)))
  {
    var f' := Next(f, Register(c));
    var was := AsSet(DisplacedBy(f.live, c));
    forall x ensures x in f'.live.Values <==> x == c || (x in f.live.Values && x !in was) {
      if x in f.live.Values { assert f.live[x.device] == x; }
      if x in f.live.Values && x !in was && x != c { assert f'.live[x.device] == x; }
      assert f'.live[c.device] == c;
    }
  }

  lemma CleanupConserves(f: Fates, c: Conn)
    requires Conserved(f)
    ensures Conserved(Next(f, Cleanup(c)))
  {
    var f' := Next(f, Cleanup(c));
    if Lookup(f.live, c.device) == Some(c) {
      forall x ensures x in f'.live.Values <==> x in f.live.Values && x != c {
        if x in f.live.Values && x != c { assert f.live[x.device] == x && f'.live[x.device] == x; }
      }
    }
  }

  lemma {:induction false} AddedMeans(ops: seq<Op>, c: Conn)
    ensures c in After(ops).added <==> exists i :: 0 <= i < |ops| && ops[i] == Register(c)
    decreases |ops|
  {
    if ops != [] {
      var n := |ops| - 1;
      AddedMeans(ops[..n], c);
      if c in After(ops).added {
        if ops[n] != Register(c) {
          var i :| 0 <= i < n && ops[..n][i] == Register(c);
          assert ops[i] == Register(c);
        }
      } else {
        forall i | 0 <= i < |ops| ensures ops[i] != Register(c) {
          if i < n { assert ops[..n][i] == ops[i]; }
        }
      }
    }
  }

  /** Over every run: each added connection is exactly one of live, displaced or removed. */
  lemma {:induction false} EveryConnectionHasOneFate(ops: seq<Op>)
    requires Legal(ops)
    ensures Conserved(After(ops))
    decreases |ops|
  {
    if ops != [] {
      var n := |ops| - 1;
      EveryConnectionHasOneFate(ops[..n]);
      match ops[n]
      case Register(c) =>
        AddedMeans(ops[..n], c);
        RegisterConserves(After(ops[..n]), c);
      case Cleanup(c) => CleanupConserves(After(ops[..n]), c);
    }
  }

  /** `c` took its device's place at `i` and neither a newer connection nor its own cleanup followed. */
  ghost predicate Holds(ops: seq<Op>, i: int, c: Conn) {
    && 0 <= i < |ops| && ops[i] == Register(c)
    && forall j :: i < j < |ops| ==> ops[j] != Cleanup(c) && !(ops[j].Register? && ops[j].conn.device == c.device)
  }

  /** The live connection of a device is the one that registered last, unless its own cleanup came
      since. Other connections' cleanups, at any time, make no difference. */
  lemma {:induction false} LiveExactly(ops: seq<Op>, c: Conn)
    ensures Lookup(After(ops).live, c.device) == Some(c) <==> exists i :: Holds(ops, i, c)
    ensures c.device in After(ops).live ==> After(ops).live[c.device].device == c.device
    decreases |ops|
  {
    if ops != [] {
      var n := |ops| - 1;
      var front := ops[..n];
      LiveExactly(front, c);
      var op := ops[n];
      var kept := op != Cleanup(c) && !(op.Register? && op.conn.device == c.device);
      if op == Register(c) {
        assert Holds(ops, n, c);
      } else if kept {
        HoldsStill(ops, c);
        if op.Cleanup? && op.conn.device == c.device { LiveExactly(front, op.conn); }
      } else {
        forall i ensures !Holds(ops, i, c) {
          if 0 <= i < n { assert ops[n] == op; }
        }
      }
    }
  }

  lemma HoldsStill(ops: seq<Op>, c: Conn)
    requires ops != []
    requires
      var op := ops[|ops| - 1];
      op != Cleanup(c) && !(op.Register? && op.conn.device == c.device)
    ensures
      var front := ops[..|ops| - 1];
      (exists i :: Holds(ops, i, c)) <==> (exists i :: Holds(front, i, c))
  {
    var n := |ops| - 1;
    var front := ops[..n];
    forall i ensures Holds(ops, i, c) <==> Holds(front, i, c) {
      if Holds(front, i, c) {
        forall j | i < j < |ops| ensures ops[j] != Cleanup(c) && !(ops[j].Register? && ops[j].conn.device == c.device) {
          if j < n { assert front[j] == ops[j]; }
        }
      }
      if Holds(ops, i, c) && i < n { assert front[i] == ops[i]; }
    }
  }

  // ------------------------------------------------------ a concurrent count

  /** Count visits the shards one lock at a time while other calls go on: `next` shards are visited. */
  datatype Counting = Counting(shards: seq<map<Device, Conn>>, next: nat, n: nat)

  datatype Tick = Visit | Meanwhile(op: Op)

  function Change(shards: seq<map<Device, Conn>>, op: Op): (after: seq<map<Device, Conn>>)
    requires |shards| == SHARDS
    ensures |after| == SHARDS
  {
    var c := op.conn;
    var k := ShardOf(c.device);
    match op
    case Register(_) => shards[k := Added(shards[k], c)]
    case Cleanup(_) => shards[k := Removed(shards[k], c)]
  }

  function Ticked(s: Counting, t: Tick): (s': Counting)
    requires |s.shards| == SHARDS
    ensures |s'.shards| == SHARDS
  {
    match t
    case Visit => if s.next >= SHARDS then s else Counting(s.shards, s.next + 1, s.n + |s.shards[s.next]|)
    case Meanwhile(op) => s.(shards := Change(s.shards, op))
  }

  function Counted(s: Counting, ticks: seq<Tick>): (s': Counting)
    requires |s.shards| == SHARDS
    ensures |s'.shards| == SHARDS
    decreases |ticks|
  {
    if ticks == [] then s else Counted(Ticked(s, ticks[0]), ticks[1..])
  }

  function Registers(ticks: seq<Tick>): nat {
    if ticks == [] then 0
    else (if ticks[0].Meanwhile? && ticks[0].op.Register? then 1 else 0) + Registers(ticks[1..])
  }

  function Cleanups(ticks: seq<Tick>): nat {
    if ticks == [] then 0
    else (if ticks[0].Meanwhile? && ticks[0].op.Cleanup? then 1 else 0) + Cleanups(ticks[1..])
  }

  /** What the count would come to if nothing else happened. */
  function Prospect(s: Counting): int
    requires s.next <= |s.shards|
  {
    s.n + TotalSize(s.shards) - TotalSize(s.shards[..s.next])
  }

  lemma {:induction false} TotalAfterUpdate(shards: seq<map<Device, Conn>>, k: nat, m: map<Device, Conn>)
    requires k < |shards|
    ensures TotalSize(shards[k := m]) == TotalSize(shards) - |shards[k]| + |m|
    decreases |shards|
  {
    var n := |shards| - 1;
    if k < n {
      assert shards[k := m][..n] == shards[..n][k := m];
      TotalAfterUpdate(shards[..n], k, m);
    } else {
      assert shards[k := m][..n] == shards[..n];
    }
  }

  lemma {:induction false} ChangedSize(m: map<Device, Conn>, c: Conn)
    ensures |m| <= |Added(m, c)| <= |m| + 1
    ensures |m| - 1 <= |Removed(m, c)| <= |m|
  {
    assert Added(m, c).Keys == m.Keys + {c.device};
    assert (m - {c.device}).Keys == m.Keys - {c.device};
  }

  lemma TickedProspect(s: Counting, t: Tick)
    requires |s.shards| == SHARDS && s.next <= SHARDS
    ensures Ticked(s, t).next <= SHARDS
    ensures Prospect(s) - Cleanups([t]) <= Prospect(Ticked(s, t)) <= Prospect(s) + Registers([t])
  {
    match t
    case Visit =>
      if s.next < SHARDS { assert s.shards[..s.next + 1][..s.next] == s.shards[..s.next]; }
    case Meanwhile(op) =>
      var c := op.conn;
      var k := ShardOf(c.device);
      var m := if op.Register? then Added(s.shards[k], c) else Removed(s.shards[k], c);
      ChangedSize(s.shards[k], c);
      TotalAfterUpdate(s.shards, k, m);
      if k < s.next {
        assert s.shards[k := m][..s.next] == s.shards[..s.next][k := m];
        TotalAfterUpdate(s.shards[..s.next], k, m);
      } else {
        assert s.shards[k := m][..s.next] == s.shards[..s.next];
      }
  }

  /** A count that runs beside other calls is off by no more than those calls: it lies between the
      size it started from less the cleanups and that size plus the registrations in between. */
  lemma {:induction false} ConcurrentCountBounds(s: Counting, ticks: seq<Tick>)
    requires |s.shards| == SHARDS && s.next <= SHARDS
    ensures Counted(s, ticks).next <= SHARDS
    ensures Prospect(s) - Cleanups(ticks) <= Prospect(Counted(s, ticks)) <= Prospect(s) + Registers(ticks)
    decreases |ticks|
  {
    if ticks != [] {
      assert [ticks[0]][1..] == [];
      assert Cleanups(ticks) == Cleanups([ticks[0]]) + Cleanups(ticks[1..]);
      assert Registers(ticks) == Registers([ticks[0]]) + Registers(ticks[1..]);
      TickedProspect(s, ticks[0]);
      ConcurrentCountBounds(Ticked(s, ticks[0]), ticks[1..]);
    }
  }

  lemma CountBounds(shards: seq<map<Device, Conn>>, ticks: seq<Tick>)
    requires Placed(shards) && |shards| == SHARDS && Counted(Counting(shards, 0, 0), ticks).next == SHARDS
    ensures |Merged(shards)| - Cleanups(ticks) <= Counted(Counting(shards, 0, 0), ticks).n <= |Merged(shards)| + Registers(ticks)
  {
    var s := Counting(shards, 0, 0);
    var e := Counted(s, ticks);
    MergedSize(shards);
    ConcurrentCountBounds(s, ticks);
    assert shards[..0] == [] && e.shards[..SHARDS] == e.shards;
  }

  // ------------------------------------------------- what the count comes to

  function Applied(shards: seq<map<Device, Conn>>, ops: seq<Op>): (after: seq<map<Device, Conn>>)
    requires |shards| == SHARDS
    ensures |after| == SHARDS
    decreases |ops|
  {
    if ops == [] then shards else Applied(Change(shards, ops[0]), ops[1..])
  }

  function AllOps(ticks: seq<Tick>): seq<Op> {
    if ticks == [] then [] else (if ticks[0].Meanwhile? then [ticks[0].op] else []) + AllOps(ticks[1..])
  }

  /** The calls that reach their shard before the count does. */
  function EarlyOps(next: nat, ticks: seq<Tick>): seq<Op>
    decreases |ticks|
  {
    if ticks == [] then []
    else
      match ticks[0]
      case Visit => EarlyOps(if next >= SHARDS then next else next + 1, ticks[1..])
      case Meanwhile(op) => (if ShardOf(op.conn.device) >= next then [op] else []) + EarlyOps(next, ticks[1..])
  }

  /** `frozen` has each visited shard as it was when visited, and the others as they are. */
  ghost predicate Freezes(s: Counting, frozen: seq<map<Device, Conn>>) {
    && |frozen| == SHARDS && |s.shards| == SHARDS && s.next <= SHARDS
    && (forall i :: s.next <= i < SHARDS ==> frozen[i] == s.shards[i])
    && TotalSize(frozen[..s.next]) == s.n
  }

  lemma TickFreezes(s: Counting, frozen: seq<map<Device, Conn>>, t: Tick)
    requires Freezes(s, frozen)
    ensures Freezes(Ticked(s, t), Applied(frozen, EarlyOps(s.next, [t])))
  {
    assert [t][1..] == [];
    match t
    case Visit =>
      assert EarlyOps(s.next, [t]) == [];
      if s.next < SHARDS { assert frozen[..s.next + 1][..s.next] == frozen[..s.next]; }
    case Meanwhile(op) =>
      var k := ShardOf(op.conn.device);
      if k >= s.next {
        assert EarlyOps(s.next, [t]) == [op] && [op][1..] == [];
        assert Applied(frozen, [op]) == Change(frozen, op);
        assert Change(frozen, op)[..s.next] == frozen[..s.next];
      } else {
        assert EarlyOps(s.next, [t]) == [];
      }
  }

  lemma {:induction false} AppliedAppend(shards: seq<map<Device, Conn>>, a: seq<Op>, b: seq<Op>)
    requires |shards| == SHARDS
    ensures Applied(shards, a + b) == Applied(Applied(shards, a), b)
    decreases |a|
  {
    if a == [] {
      assert a + b == b;
    } else {
      assert (a + b)[1..] == a[1..] + b;
      AppliedAppend(Change(shards, a[0]), a[1..], b);
    }
  }

  lemma EarlyOpsCons(next: nat, later: nat, t: Tick, rest: seq<Tick>)
    requires later == (if t.Visit? && next < SHARDS then next + 1 else next)
    ensures EarlyOps(next, [t] + rest) == EarlyOps(next, [t]) + EarlyOps(later, rest)
  {
    assert ([t] + rest)[1..] == rest && [t][1..] == [];
    assert EarlyOps(later, []) == [];
  }

  lemma {:induction false} CountFreezes(s: Counting, frozen: seq<map<Device, Conn>>, ticks: seq<Tick>)
    requires Freezes(s, frozen)
    ensures Freezes(Counted(s, ticks), Applied(frozen, EarlyOps(s.next, ticks)))
    decreases |ticks|
  {
    if ticks != [] {
      var t, rest := ticks[0], ticks[1..];
      TickFreezes(s, frozen, t);
      var now := Applied(frozen, EarlyOps(s.next, [t]));
      CountFreezes(Ticked(s, t), now, rest);
      EarlyOpsCons(s.next, Ticked(s, t).next, t, rest);
      assert ticks == [t] + rest;
      AppliedAppend(frozen, EarlyOps(s.next, [t]), EarlyOps(Ticked(s, t).next, rest));
    }
  }

  lemma {:induction false} AppliedPlaced(shards: seq<map<Device, Conn>>, ops: seq<Op>)
    requires |shards| == SHARDS && Placed(shards)
    ensures Placed(Applied(shards, ops))
    decreases |ops|
  {
    if ops != [] {
      ChangePlaced(shards, ops[0]);
      AppliedPlaced(Change(shards, ops[0]), ops[1..]);
    }
  }

  lemma ChangePlaced(shards: seq<map<Device, Conn>>, op: Op)
    requires |shards| == SHARDS && Placed(shards)
    ensures Placed(Change(shards, op))
  {
  }

  /** What a count that runs beside other calls comes to: the size of the one map after exactly those calls
      that reached their shard before the count did. So it is a size the registry had whenever those are
      the calls up to some moment. */
  lemma CountExactly(shards: seq<map<Device, Conn>>, ticks: seq<Tick>)
    requires Placed(shards) && |shards| == SHARDS && Counted(Counting(shards, 0, 0), ticks).next == SHARDS
    ensures Counted(Counting(shards, 0, 0), ticks).n == |Merged(Applied(shards, EarlyOps(0, ticks)))|
    ensures forall m :: 0 <= m <= |AllOps(ticks)| && EarlyOps(0, ticks) == AllOps(ticks)[..m] ==>
      Counted(Counting(shards, 0, 0), ticks).n == |Merged(Applied(shards, AllOps(ticks)[..m]))|
  {
    var s := Counting(shards, 0, 0);
    assert shards[..0] == [];
    CountFreezes(s, shards, ticks);
    var frozen := Applied(shards, EarlyOps(0, ticks));
    assert frozen[..SHARDS] == frozen;
    AppliedPlaced(shards, EarlyOps(0, ticks));
    MergedSize(frozen);
  }

  function Visits(k: nat): seq<Tick> {
    if k == 0 then [] else [Visit] + Visits(k - 1)
  }

  lemma {:induction false} VisitsCount(s: Counting, k: nat)
    requires |s.shards| == SHARDS && s.next + k <= SHARDS
    ensures
      var e := Counted(s, Visits(k));
      && e.shards == s.shards && e.next == s.next + k
      && e.n == s.n + TotalSize(s.shards[..s.next + k]) - TotalSize(s.shards[..s.next])
    decreases k
  {
    if k > 0 {
      assert Visits(k)[0] == Visit && Visits(k)[1..] == Visits(k - 1);
      assert s.shards[..s.next + 1][..s.next] == s.shards[..s.next];
      VisitsCount(Ticked(s, Visit), k - 1);
    }
  }

  lemma {:induction false} CountedAppend(s: Counting, p: seq<Tick>, q: seq<Tick>)
    requires |s.shards| == SHARDS
    ensures Counted(s, p + q) == Counted(Counted(s, p), q)
    decreases |p|
  {
    if p == [] {
      assert p + q == q;
    } else {
      assert (p + q)[1..] == p[1..] + q;
      CountedAppend(Ticked(s, p[0]), p[1..], q);
    }
  }

  lemma {:induction false} NothingThere(shards: seq<map<Device, Conn>>)
    requires forall i :: 0 <= i < |shards| ==> shards[i] == map[]
    ensures TotalSize(shards) == 0
    decreases |shards|
  {
    if shards != [] { NothingThere(shards[..|shards| - 1]); }
  }

  /** Only `c` is registered. */
  ghost predicate OnlyHolds(shards: seq<map<Device, Conn>>, c: Conn) {
    |shards| == SHARDS
    && forall i :: 0 <= i < SHARDS ==> shards[i] == if i == ShardOf(c.device) then map[c.device := c] else map[]
  }

  /** A visit order that passes `b`'s shard first. */
  function TornTicks(a: Conn, b: Conn): seq<Tick> {
    var k := ShardOf(b.device) + 1;
    Visits(k) + ([Meanwhile(Register(b)), Meanwhile(Cleanup(a))] + Visits(SHARDS - k))
  }

  lemma Handover(shards: seq<map<Device, Conn>>, a: Conn, b: Conn)
    requires OnlyHolds(shards, a) && ShardOf(b.device) != ShardOf(a.device)
    ensures OnlyHolds(Change(Change(shards, Register(b)), Cleanup(a)), b)
  {
    assert map[a.device := a] - {a.device} == map[];
  }

  lemma HandoverTicks(s: Counting, a: Conn, b: Conn)
    requires |s.shards| == SHARDS
    ensures Counted(s, [Meanwhile(Register(b)), Meanwhile(Cleanup(a))])
         == s.(shards := Change(Change(s.shards, Register(b)), Cleanup(a)))
  {
    var mid := [Meanwhile(Register(b)), Meanwhile(Cleanup(a))];
    var s1 := Ticked(s, mid[0]);
    var s2 := Ticked(s1, mid[1]);
    assert mid[1..] == [mid[1]] && [mid[1]][1..] == [];
    assert Counted(s2, []) == s2 && Counted(s1, [mid[1]]) == s2;
  }

  /** Visiting every shard up to and including `b`'s finds nobody, and so does visiting the rest once
      `b` alone is registered. */
  lemma EmptyFirstPart(shards: seq<map<Device, Conn>>, a: Conn, k: nat)
    requires OnlyHolds(shards, a) && k <= ShardOf(a.device)
    ensures Counted(Counting(shards, 0, 0), Visits(k)) == Counting(shards, k, 0)
  {
    VisitsCount(Counting(shards, 0, 0), k);
    NothingThere(shards[..k]);
    NothingThere(shards[..0]);
  }

  lemma EmptyLastPart(shards: seq<map<Device, Conn>>, b: Conn)
    requires OnlyHolds(shards, b)
    ensures
      var k := ShardOf(b.device) + 1;
      Counted(Counting(shards, k, 0), Visits(SHARDS - k)) == Counting(shards, SHARDS, 0)
  {
    var k := ShardOf(b.device) + 1;
    VisitsCount(Counting(shards, k, 0), SHARDS - k);
    TotalOfOne(shards, b);
  }

  /** The count can be a size the registry never had: with `a` connected, `b` connecting and only then
      `a` leaving, someone is connected throughout, and the count comes to nobody. */
  lemma CountCanBeTorn(shards: seq<map<Device, Conn>>, a: Conn, b: Conn)
    requires OnlyHolds(shards, a) && ShardOf(b.device) < ShardOf(a.device)
    ensures
      var e := Counted(Counting(shards, 0, 0), TornTicks(a, b));
      e.next == SHARDS && e.n == 0 && OnlyHolds(e.shards, b)
  {
    var k := ShardOf(b.device) + 1;
    var after := Change(Change(shards, Register(b)), Cleanup(a));
    var s0, s1, s2 := Counting(shards, 0, 0), Counting(shards, k, 0), Counting(after, k, 0);
    var mid, rest := [Meanwhile(Register(b)), Meanwhile(Cleanup(a))], Visits(SHARDS - k);
    EmptyFirstPart(shards, a, k);
    HandoverTicks(s1, a, b);
    Handover(shards, a, b);
    EmptyLastPart(after, b);
    TornParts(s0, Visits(k), mid, rest);
  }

  lemma TornParts(s: Counting, p: seq<Tick>, q: seq<Tick>, r: seq<Tick>)
    requires |s.shards| == SHARDS
    ensures Counted(s, p + (q + r)) == Counted(Counted(Counted(s, p), q), r)
  {
    CountedAppend(s, p, q + r);
    CountedAppend(Counted(s, p), q, r);
  }

  /** Two devices for which this happens. */
  lemma TornDevices()
    ensures ShardOf(Device([0x61])) == 44 < ShardOf(Device([0x62])) == 229
  {
    assert [0x61 as bv8][..0] == [] && [0x62 as bv8][..0] == [];
    assert Fnv1a([]) == OFFSET;
    assert Fnv1a([0x61]) == 0xe40c292c;
    assert Fnv1a([0x62]) == 0xe70c2de5;
  }

  lemma TotalOfOne(shards: seq<map<Device, Conn>>, c: Conn)
    requires OnlyHolds(shards, c)
    ensures TotalSize(shards[..SHARDS]) == TotalSize(shards[..ShardOf(c.device) + 1])
  {
    var k := ShardOf(c.device);
    var clear := shards[k := map[]];
    TotalAfterUpdate(shards[..SHARDS], k, map[]);
    TotalAfterUpdate(shards[..k + 1], k, map[]);
    assert shards[..SHARDS][k := map[]] == clear[..SHARDS] && shards[..k + 1][k := map[]] == clear[..k + 1];
    NothingThere(clear[..SHARDS]);
    NothingThere(clear[..k + 1]);
  }

  /** What Add hands back to be closed: the connection that was live for the device, if it is another one. */
  lemma DisplacedExactly(live: map<Device, Conn>, c: Conn, x: Conn)
    ensures DisplacedBy(live, c) == Some(x) <==> c.device in live && live[c.device] == x && x != c
    ensures c.device in Added(live, c) && Added(live, c)[c.device] == c
    ensures Added(live, c).Keys == live.Keys + {c.device}
  {
  }
}
