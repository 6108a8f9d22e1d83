/** A feed that delivers each device's payloads in publication order, without loss while it is attached, a
    client that plans frames as they arrived, and a local database that stores every batch in turn: under
    all three no message is lost, and no two of them are enough. */
module ReliableFeed {
  import opened Ports
  import opened Items
  import opened ReplayGate
  import opened Client
  import opened Delivery
  import opened ZeroLoss
  import opened Runs
  import opened Losing

  ghost predicate FeedReliable(s: System, st: Step)
    requires Enabled(s, st)
  {
    match st
    case Send(_, _, _, toDevice, published) => toDevice ==> published
    case Arrive(at, again, _) => !again && forall j :: 0 <= j < at ==> s.net[j].conv != s.net[at].conv
    case Drop(_) => s.conn.None?
    case _ => true
  }

  /** Frames are planned in the order they arrived, as a client does that plans before it waits. */
  ghost predicate PlansInTurn(st: Step) {
    st.Plan? ==> st.at == 0
  }

  /** Batches are finished oldest first, and only the write of a cursor row may fail. */
  ghost predicate StoreReliable(s: System, st: Step)
    requires Enabled(s, st)
  {
    match st
    case Complete(job) => job == 0
    case Abandon(job, noted) => s.client.jobs[job].todo == {} && (noted == {} || job == 0)
    case _ => true
  }

  /** What is allowed to go wrong. */
  datatype Faults = Faults(feed: bool, plan: bool, store: bool)

  const NONE: Faults := Faults(false, false, false)

  ghost predicate Reliable(may: Faults, s: System, st: Step)
    requires Enabled(s, st)
  {
    (may.feed || FeedReliable(s, st)) && (may.plan || PlansInTurn(st)) && (may.store || StoreReliable(s, st))
  }

  ghost predicate ReliableAll(may: Faults, s: System, steps: seq<Step>)
    requires Legal(s, steps)
    decreases |steps|
  {
    steps != [] ==> Reliable(may, s, steps[0]) && ReliableAll(may, Taken(s, steps[0]), steps[1..])
  }

  /** Every accepted row is kept, on its way, held, in transit, or still ahead of the scan. */
  ghost predicate Located(s: System, c: Conn) {
    forall y :: y in s.accepted ==>
      Kept(s.client, y) || Coming(s, c, y) || y in c.gate.buffered || y in s.net
      || (!c.drained && y in s.inbox && Beyond(c.pos, y))
  }

  ghost predicate HeldBeforeNet(c: Conn, net: seq<Item>) {
    forall x, y :: x in c.gate.buffered && y in net && x.conv == y.conv ==> x.num < y.num
  }

  /** A watermark names an item that was really enqueued on this connection, and may have reached the
      client since. */
  ghost predicate Marked(s: System, c: Conn) {
    !c.gate.open ==> forall conv :: SeenOf(c.gate.seen, conv) > 0 ==> exists r ::
      r in s.accepted && r.conv == conv && r.num == SeenOf(c.gate.seen, conv)
      && (r.num <= Cursor(s, conv) || OnWay(s, r))
  }

  /** What a batch will acknowledge is stored, or to be stored by it or an older one. */
  ghost predicate InTurn(jobs: seq<Job>, persisted: set<Item>, rows: set<Item>) {
    forall j, y :: 0 <= j < |jobs| && y in rows && Covers(jobs[j].watermark, y) ==>
      y in persisted || InJobs(jobs[..j + 1], y)
  }

  ghost predicate JobsInTurn(s: System) {
    InTurn(s.client.jobs, s.client.persisted, s.accepted)
  }

  ghost predicate FeedInOrder(s: System) {
    && ConvAscending(s.net)
    && (s.conn.Some? ==>
          && Located(s, s.conn.value) && HeldBeforeNet(s.conn.value, s.net) && Marked(s, s.conn.value)
          && (s.conn.value.gate.open ==> s.conn.value.gate.buffered == []))
  }

  ghost predicate Good(s: System) {
    Inv(s) && Safe(s) && FeedInOrder(s) && JobsInTurn(s)
  }

  lemma RemovedKeeps(s: seq<Item>, at: nat)
    requires at < |s| && ConvAscending(s)
    ensures ConvAscending(Removed(s, at))
    ensures forall y :: y in s ==> y == s[at] || y in Removed(s, at)
    ensures forall y :: y in Removed(s, at) ==> y in s
    ensures (forall j :: 0 <= j < at ==> s[j].conv != s[at].conv) ==>
              forall y :: y in Removed(s, at) && y.conv == s[at].conv ==> s[at].num < y.num
  {
    var r := Removed(s, at);
    forall i | 0 <= i < |r| ensures r[i] == s[if i < at then i else i + 1] {}
    forall y | y in s && y != s[at] ensures y in r {
      var i :| 0 <= i < |s| && s[i] == y;
      assert r[if i < at then i else i - 1] == y;
    }
  }

  /** Under the watermark: the marked item vouches for every lower row of its conversation. */
  lemma BelowWatermark(s: System, y: Item)
    requires Good(s) && s.conn.Some? && !s.conn.value.gate.open && y in s.accepted
    requires y.num <= SeenOf(s.conn.value.gate.seen, y.conv)
    ensures Kept(s.client, y) || OnWay(s, y)
  {
    var c, p := s.conn.value, Pipeline(s);
    var r :| r in s.accepted && r.conv == y.conv && r.num == SeenOf(c.gate.seen, y.conv)
             && (r.num <= Cursor(s, y.conv) || OnWay(s, r));
    if r.num <= Cursor(s, y.conv) {
      NotOvertakenMeans(s, y);
    } else {
      var k :| 0 <= k < |p| && r in p[k];
      if Lower(y, r) {
        assert Kept(s.client, y) || InFirst(p, k + 1, y);
        if !Kept(s.client, y) {
          var i :| 0 <= i < k + 1 && i < |p| && y in p[i];
        }
      } else {
        assert SameKey(y, r);
      }
    }
  }

  lemma HeldIsFlushed(g: GateState, y: Item) returns (z: Item)
    requires y in g.buffered && y.num > SeenOf(g.seen, y.conv)
    ensures z in Flushed(g) && SameKey(y, z) && z in g.buffered
  {
    FlushedMeans(g);
    FlushedFrom(g);
    z := FlushHas(Flushed(g), g.buffered, g.seen, y);
  }

  lemma FlushHas(r: seq<Item>, buffered: seq<Item>, seen: map<string, int>, y: Item) returns (z: Item)
    requires FlushOf(r, buffered, seen) && y in buffered && y.num > SeenOf(seen, y.conv)
    ensures z in r && SameKey(y, z)
  {
    z :| z in r && SameKey(y, z);
  }

  lemma HeldIsFlushedOrStored(s: System, y: Item)
    requires Good(s) && s.conn.Some? && !s.conn.value.gate.open && y in s.conn.value.gate.buffered
    ensures Kept(s.client, y) || OnWay(s, y) || y in Flushed(s.conn.value.gate)
  {
    var g := s.conn.value.gate;
    assert y in s.accepted;
    if y.num <= SeenOf(g.seen, y.conv) {
      BelowWatermark(s, y);
    } else {
      var z := HeldIsFlushed(g, y);
      assert z in s.accepted;
    }
  }

  lemma ReliableIsGapless(s: System, st: Step)
    requires Good(s) && Enabled(s, st) && Reliable(NONE, s, st)
    ensures Gapless(s, st)
  {
    if st.Arrive? && s.conn.Some? && s.conn.value.gate.open {
      var c, x := s.conn.value, s.net[st.at];
      RemovedKeeps(s.net, st.at);
      var rest := Removed(s.net, st.at);
      forall y | y in s.accepted && Lower(y, x)
        ensures Kept(s.client, y) || OnWay(s, y)
      {
        assert y in s.net ==> y in rest;
      }
    } else if st.Finish? {
      var c := s.conn.value;
      var f := Flushed(c.gate);
      FlushedFrom(c.gate);
      forall x, y | x in f && y in s.accepted && Lower(y, x)
        ensures Kept(s.client, y) || OnWay(s, y) || y in f
      {
        assert x in c.gate.buffered;
        if y in c.gate.buffered { HeldIsFlushedOrStored(s, y); }
      }
    } else if st.Plan? {
      OldestIsFirstInLine(s);
    } else if st.Complete? || st.Abandon? {
      StoreIsGapless(s, st);
    }
  }

  lemma StoreIsGapless(s: System, st: Step)
    requires Good(s) && Enabled(s, st) && (st.Complete? || st.Abandon?) && Reliable(NONE, s, st)
    ensures Gapless(s, st)
  {
    var jobs := s.client.jobs;
    if st.job == 0 {
      forall y | y in s.accepted && Covers(jobs[0].watermark, y) ensures y in s.client.persisted {
        assert jobs[..1][0] == jobs[0];
      }
    }
    forall y | InJobs(jobs, y) ensures y in s.accepted {
      var j :| 0 <= j < |jobs| && y in jobs[j].todo;
      assert JobSound(s, jobs[j]);
    }
  }

  lemma ArriveKeepsOrder(s: System, st: Step)
    requires Good(s) && Enabled(s, st) && (st.Arrive? || st.Drop?) && Reliable(NONE, s, st)
    ensures FeedInOrder(Taken(s, st))
  {
    var s' := Taken(s, st);
    RemovedKeeps(s.net, st.at);
    if s.conn.Some? && s'.conn.Some? {
      var c, c', x, p := s.conn.value, s'.conn.value, s.net[st.at], Pipeline(s);
      if c.gate.open {
        assert Pipeline(s') == p + [[x]];
        forall y ensures (Coming(s, c, y) ==> Coming(s', c', y)) && Coming(s', c', x) {
          AppendKeepsFirst(p, [x], |p|, y);
          AppendKeepsFirst(p, [x], |p|, x);
        }
      } else {
        assert Pipeline(s') == p && c'.page == c.page;
        assert forall y :: OnWay(s', y) <==> OnWay(s, y);
      }
    }
  }

  lemma FetchKeepsOrder(s: System, st: Step)
    requires Good(s) && Enabled(s, st) && st.Fetch?
    ensures FeedInOrder(Taken(s, st))
  {
    var s', c := Taken(s, st), s.conn.value;
    var c' := s'.conn.value;
    assert Pipeline(s') == Pipeline(s);
    forall y | y in s.accepted && !c.drained && y in s.inbox && Beyond(c.pos, y)
      ensures Kept(s.client, y) || Coming(s', c', y) || (!c'.drained && y in s.inbox && Beyond(c'.pos, y))
    {
      if y in st.rows { PageCovers(s, st.rows, y, y); }
    }
    assert forall y :: OnWay(s', y) <==> OnWay(s, y);
  }

  lemma EmitKeepsOrder(s: System, st: Step)
    requires Good(s) && Enabled(s, st) && st.Emit?
    ensures FeedInOrder(Taken(s, st))
  {
    var s' := Taken(s, st);
    if s'.conn.Some? {
      var c, c', p := s.conn.value, s'.conn.value, Pipeline(s);
      assert Pipeline(s') == p + [c.page];
      forall y ensures Coming(s, c, y) ==> OnWay(s', y) { AppendKeepsFirst(p, c.page, |p|, y); }
      EmitKeepsMarks(s, s');
    }
  }

  lemma EmitKeepsMarks(s: System, s': System)
    requires Good(s) && s.conn.Some? && s'.conn.Some? && s'.accepted == s.accepted && s'.client == s.client
    requires s'.conn.value.gate == s.conn.value.gate.(seen := Advanced(s.conn.value.gate.seen, s.conn.value.page))
    requires forall y :: Coming(s, s.conn.value, y) ==> OnWay(s', y)
    ensures Marked(s', s'.conn.value)
  {
    var c, c' := s.conn.value, s'.conn.value;
    assert Frames(c)[|c.queue|] == c.page;
    if !c'.gate.open {
      forall conv | SeenOf(c'.gate.seen, conv) > 0
        ensures exists r :: r in s.accepted && r.conv == conv && r.num == SeenOf(c'.gate.seen, conv)
                         && (r.num <= Cursor(s, conv) || OnWay(s', r))
      {
        AdvancedCovers(c.gate.seen, c.page, conv);
        if SeenOf(c'.gate.seen, conv) == SeenOf(c.gate.seen, conv) {
          var r :| r in s.accepted && r.conv == conv && r.num == SeenOf(c.gate.seen, conv)
                   && (r.num <= Cursor(s, conv) || OnWay(s, r));
          assert r.num <= Cursor(s, conv) || OnWay(s', r);
        } else {
          var r :| r in c.page && r.conv == conv && r.num == SeenOf(c'.gate.seen, conv);
          assert Coming(s, c, r);
        }
      }
    }
  }

  lemma FinishKeepsOrder(s: System, st: Step)
    requires Good(s) && Enabled(s, st) && st.Finish?
    ensures FeedInOrder(Taken(s, st))
  {
    var s' := Taken(s, st);
    if s'.conn.Some? {
      var c, c', p := s.conn.value, s'.conn.value, Pipeline(s);
      var f := Flushed(c.gate);
      assert Pipeline(s') == if f == [] then p else p + [f];
      forall y | y in s.accepted ensures Kept(s.client, y) || Coming(s', c', y) || y in s.net {
        AppendKeepsFirst(p, f, |p|, y);
        if y in c.gate.buffered { HeldIsFlushedOrStored(s, y); }
      }
    }
  }

  lemma PumpKeepsOrder(s: System, st: Step)
    requires Good(s) && Enabled(s, st) && st.Pump?
    ensures FeedInOrder(Taken(s, st))
  {
    if st.written {
      var s' := Taken(s, st);
      assert Pipeline(s') == Pipeline(s);
      assert forall y :: OnWay(s', y) <==> OnWay(s, y);
      assert forall y :: Kept(s'.client, y) <==> Kept(s.client, y);
    }
  }

  /** The oldest frame was planned: what it held is kept and passed by the cursor. */
  lemma PlanMoves(s: System, s': System, y: Item)
    requires Good(s) && s.client.received != [] && OnWay(s, y) && s' == s.(client := PlannedAt(s.client, 0))
    requires forall x :: x in s.client.received[0] ==> Kept(s'.client, x) && x.num <= Cursor(s', x.conv)
    ensures (Kept(s'.client, y) && y.num <= Cursor(s', y.conv)) || OnWay(s', y)
  {
    var p, p' := Pipeline(s), Pipeline(s');
    assert p[0] == s.client.received[0] && p' == p[1..];
    var i :| 0 <= i < |p| && y in p[i];
    if i > 0 { assert y in p'[i - 1]; }
  }

  lemma PlanKeepsOrder(s: System, st: Step)
    requires Good(s) && Enabled(s, st) && st == Plan(0)
    ensures FeedInOrder(Taken(s, st))
  {
    var s' := s.(client := PlannedAt(s.client, 0));
    PlannedAtKeeps(s, 0);
    PlannedCursors(s, s.client.received[0]);
    forall y | OnWay(s, y) ensures (Kept(s'.client, y) && y.num <= Cursor(s', y.conv)) || OnWay(s', y) {
      PlanMoves(s, s', y);
    }
    if s.conn.Some? { PlanKeepsMarks(s, s'); }
    assert Taken(s, st) == s';
  }

  lemma PlanKeepsMarks(s: System, s': System)
    requires Good(s) && s.conn.Some? && s'.conn == s.conn && s'.accepted == s.accepted
    requires forall conv :: Cursor(s, conv) <= Cursor(s', conv)
    requires forall y :: OnWay(s, y) ==> y.num <= Cursor(s', y.conv) || OnWay(s', y)
    ensures Marked(s', s.conn.value)
  {
    var c := s.conn.value;
    if !c.gate.open {
      forall conv | SeenOf(c.gate.seen, conv) > 0
        ensures exists r :: r in s.accepted && r.conv == conv && r.num == SeenOf(c.gate.seen, conv)
                         && (r.num <= Cursor(s', conv) || OnWay(s', r))
      {
        var r :| r in s.accepted && r.conv == conv && r.num == SeenOf(c.gate.seen, conv)
                 && (r.num <= Cursor(s, conv) || OnWay(s, r));
        assert r.num <= Cursor(s', conv) || OnWay(s', r);
      }
    }
  }

  lemma StoreKeepsOrder(s: System, st: Step)
    requires Good(s) && Enabled(s, st) && (st.Save? || st.Complete? || st.Abandon?) && Reliable(NONE, s, st)
    ensures FeedInOrder(Taken(s, st))
  {
    StoreStepKeeps(s, st);
    assert Pipeline(Taken(s, st)) == Pipeline(s);
    assert forall y :: OnWay(Taken(s, st), y) <==> OnWay(s, y);
  }

  lemma PlanKeepsTurn(s: System)
    requires Good(s) && Enabled(s, Plan(0))
    ensures JobsInTurn(Taken(s, Plan(0)))
  {
    var s' := Taken(s, Plan(0));
    var jobs, jobs' := s.client.jobs, s'.client.jobs;
    OldestIsFirstInLine(s);
    PlanDoesNotOvertake(s, 0);
    StepKeepsInv(s, Plan(0));
    forall j, y | 0 <= j < |jobs'| && y in s.accepted && Covers(jobs'[j].watermark, y)
      ensures y in s'.client.persisted || InJobs(jobs'[..j + 1], y)
    {
      if j < |jobs| {
        assert jobs'[..j + 1] == jobs[..j + 1] && jobs'[j] == jobs[j];
      } else {
        assert JobSound(s', jobs'[j]);
        assert jobs'[..j + 1] == jobs';
        NotOvertakenMeans(s', y);
      }
    }
  }

  lemma SaveKeepsTurn(jobs: seq<Job>, persisted: set<Item>, rows: set<Item>, job: nat, x: Item)
    requires InTurn(jobs, persisted, rows) && job < |jobs|
    ensures InTurn(jobs[job := jobs[job].(todo := jobs[job].todo - {x})], persisted + {x}, rows)
  {
    var jobs' := jobs[job := jobs[job].(todo := jobs[job].todo - {x})];
    forall j, y | 0 <= j < |jobs'| && y in rows && Covers(jobs'[j].watermark, y)
      ensures y in persisted + {x} || InJobs(jobs'[..j + 1], y)
    {
      SavedTurn(jobs, job, x, j, y);
    }
  }

  lemma EndedKeepsTurn(jobs: seq<Job>, persisted: set<Item>, rows: set<Item>, job: nat)
    requires InTurn(jobs, persisted, rows) && job < |jobs| && jobs[job].todo == {}
    ensures InTurn(Removed(jobs, job), persisted, rows)
  {
    var jobs' := Removed(jobs, job);
    forall j, y | 0 <= j < |jobs'| && y in rows && Covers(jobs'[j].watermark, y)
      ensures y in persisted || InJobs(jobs'[..j + 1], y)
    {
      RemovedTurn(jobs, job, j, y);
    }
  }

  lemma SavedTurn(jobs: seq<Job>, job: nat, x: Item, j: nat, y: Item)
    requires job < |jobs| && j < |jobs|
    ensures
      var jobs' := jobs[job := jobs[job].(todo := jobs[job].todo - {x})];
      jobs'[j].watermark == jobs[j].watermark && (InJobs(jobs[..j + 1], y) && y != x ==> InJobs(jobs'[..j + 1], y))
  {
    if InJobs(jobs[..j + 1], y) && y != x {
      var i :| 0 <= i < |jobs[..j + 1]| && y in jobs[..j + 1][i].todo;
      assert y in jobs[job := jobs[job].(todo := jobs[job].todo - {x})][..j + 1][i].todo;
    }
  }

  lemma RemovedTurn(jobs: seq<Job>, job: nat, j: nat, y: Item)
    requires job < |jobs| && j < |jobs| - 1 && jobs[job].todo == {}
    ensures
      var jobs', was := Removed(jobs, job), if j < job then j else j + 1;
      jobs'[j] == jobs[was] && (InJobs(jobs[..was + 1], y) ==> InJobs(jobs'[..j + 1], y))
  {
    var jobs', was := Removed(jobs, job), if j < job then j else j + 1;
    if InJobs(jobs[..was + 1], y) {
      var i :| 0 <= i < |jobs[..was + 1]| && y in jobs[..was + 1][i].todo;
      assert y in jobs'[..j + 1][if i < job then i else i - 1].todo;
    }
  }

  lemma StepKeepsTurn(s: System, st: Step)
    requires Good(s) && Enabled(s, st) && Reliable(NONE, s, st)
    ensures JobsInTurn(Taken(s, st))
  {
    var s' := Taken(s, st);
    if st.Plan? {
      PlanKeepsTurn(s);
    } else if st.Save? {
      SaveKeepsTurn(s.client.jobs, s.client.persisted, s.accepted, st.job, st.item);
    } else if st.Complete? || st.Abandon? {
      EndedKeepsTurn(s.client.jobs, s.client.persisted, s.accepted, st.job);
    } else if !st.Restart? {
      forall j, y | 0 <= j < |s.client.jobs| && y in s'.accepted && Covers(s.client.jobs[j].watermark, y)
        ensures y in s.accepted
      {
        assert JobSound(s, s.client.jobs[j]);
      }
    }
  }

  lemma SendKeepsOrder(s: System, st: Step)
    requires Good(s) && Enabled(s, st) && st.Send? && Reliable(NONE, s, st)
    ensures FeedInOrder(Taken(s, st))
  {
  }

  lemma RowsKeepOrder(s: System, st: Step)
    requires Good(s) && Enabled(s, st) && (st.Connect? || st.Ack?)
    ensures FeedInOrder(Taken(s, st))
  {
    var s' := Taken(s, st);
    StepKeepsInv(s, st);
    StepKeepsSafe(s, st);
    forall y | y in s.accepted && y !in s'.inbox ensures Kept(s.client, y) { DeletedIsStored(s', y); }
  }

  lemma StepKeepsOrder(s: System, st: Step)
    requires Good(s) && Enabled(s, st) && Reliable(NONE, s, st)
    ensures FeedInOrder(Taken(s, st))
  {
    match st
    case Send(_, _, _, _, _) => SendKeepsOrder(s, st);
    case Arrive(_, _, _) => ArriveKeepsOrder(s, st);
    case Drop(_) => ArriveKeepsOrder(s, st);
    case Connect(_, _, _) => RowsKeepOrder(s, st);
    case Fetch(_) => FetchKeepsOrder(s, st);
    case Emit(_) => EmitKeepsOrder(s, st);
    case Finish(_) => FinishKeepsOrder(s, st);
    case Pump(_) => PumpKeepsOrder(s, st);
    case Plan(_) => PlanKeepsOrder(s, st);
    case Save(_, _) => StoreKeepsOrder(s, st);
    case Complete(_) => StoreKeepsOrder(s, st);
    case Abandon(_, _) => StoreKeepsOrder(s, st);
    case Restart =>
    case Ack(_) => RowsKeepOrder(s, st);
    case Disconnect =>
  }

  /** Nothing in transit: open gate, empty feed, no frame on its way, no batch in progress. */
  ghost predicate Quiet(s: System) {
    s.conn.Some? && s.conn.value.gate.open && s.net == [] && Pipeline(s) == [] && s.client.jobs == []
  }

  /** Over every run on a reliable feed, with frames planned as they arrived and a reliable local database,
      nothing is lost, and whenever an attached connection has gone quiet the device holds every message
      ever accepted for it. */
  lemma {:induction false} ReliableRunsDeliverEverything(s: System, steps: seq<Step>)
    requires Good(s) && Legal(s, steps) && ReliableAll(NONE, s, steps)
    ensures
      var s' := Run(s, steps);
      Good(s') && NothingLost(s') && (Quiet(s') ==> s'.client.persisted == s'.accepted)
    decreases |steps|
  {
    if steps == [] {
      forall y | y in s.accepted && y !in s.inbox ensures Kept(s.client, y) { DeletedIsStored(s, y); }
    } else {
      var st := steps[0];
      ReliableIsGapless(s, st);
      StepKeepsInv(s, st);
      StepKeepsSafe(s, st);
      StepKeepsOrder(s, st);
      StepKeepsTurn(s, st);
      ReliableRunsDeliverEverything(Taken(s, st), steps[1..]);
    }
  }

  lemma InitialGood()
    ensures Good(INITIAL)
  {
    InitialSafe();
  }

  // -------------------------------------------------- no two of the three are enough

  lemma {:induction false} SmoothIsReliable(may: Faults, s: System, steps: seq<Step>)
    requires Legal(s, steps) && AllSmooth(steps)
    ensures ReliableAll(may, s, steps)
    decreases |steps|
  {
    if steps != [] {
      assert Smooth(steps[0]);
      assert forall i :: 0 <= i < |steps[1..]| ==> steps[1..][i] == steps[i + 1];
      SmoothIsReliable(may, Taken(s, steps[0]), steps[1..]);
    }
  }

  /** `steps` lead from `s` to `t` with nothing going wrong but what may. */
  ghost predicate Leads(may: Faults, s: System, t: System, steps: seq<Step>) {
    Legal(s, steps) && ReliableAll(may, s, steps) && Run(s, steps) == t
  }

  lemma LeadsOne(may: Faults, s: System, st: Step)
    requires Enabled(s, st) && Reliable(may, s, st)
    ensures Leads(may, s, Taken(s, st), [st])
  {
    RunOne(s, st);
    assert [st][1..] == [];
    assert ReliableAll(may, Taken(s, st), []);
  }

  lemma {:induction false} LeadsOn(may: Faults, s: System, t: System, u: System, p: seq<Step>, q: seq<Step>)
    requires Leads(may, s, t, p) && Leads(may, t, u, q)
    ensures Leads(may, s, u, p + q)
    decreases |p|
  {
    if p == [] {
      assert p + q == q;
    } else {
      assert (p + q)[1..] == p[1..] + q;
      LeadsOn(may, Taken(s, p[0]), t, u, p[1..], q);
    }
  }

  const FIRST: Item := Item("c", 1, "m1", false)
  const SECOND: Item := Item("c", 2, "m2", false)

  /** An idle open connection with these rows, payloads in transit, queued and received frames. */
  ghost predicate Idling(s: System, rows: set<Item>, last: int, net: seq<Item>, queue: seq<seq<Item>>, got: seq<seq<Item>>) {
    && Inv(s) && s.accepted == rows && SeenOf(s.lastSeq, "c") == last && s.net == net
    && s.conn.Some? && s.conn.value.gate.open && s.conn.value.queue == queue
    && s.client == INITIAL.client.(received := got)
  }

  lemma Sent(may: Faults, s: System, rows: set<Item>, x: Item, net: seq<Item>, published: bool) returns (t: System, steps: seq<Step>)
    requires Idling(s, rows, x.num - 1, net, [], []) && x.conv == "c" && (published || may.feed)
    ensures Leads(may, s, t, steps) && Idling(t, rows + {x}, x.num, if published then net + [x] else net, [], [])
  {
    var st := Send("c", x.uuid, x.overlay, true, published);
    assert NextItem(s, st) == x;
    StepKeepsInv(s, st);
    LeadsOne(may, s, st);
    t, steps := Taken(s, st), [st];
  }

  lemma Arrived(may: Faults, s: System, rows: set<Item>, last: int, x: Item, net: seq<Item>, queue: seq<seq<Item>>)
      returns (t: System, steps: seq<Step>)
    requires Idling(s, rows, last, [x] + net, queue, []) && |queue| < 2
    ensures Leads(may, s, t, steps) && Idling(t, rows, last, net, queue + [[x]], [])
  {
    var st := Arrive(0, false, true);
    StepKeepsInv(s, st);
    assert Removed([x] + net, 0) == net;
    LeadsOne(may, s, st);
    t, steps := Taken(s, st), [st];
  }

  lemma Pumped(may: Faults, s: System, rows: set<Item>, last: int, f: seq<Item>, queue: seq<seq<Item>>, got: seq<seq<Item>>)
      returns (t: System, steps: seq<Step>)
    requires Idling(s, rows, last, [], [f] + queue, got)
    ensures Leads(may, s, t, steps) && Idling(t, rows, last, [], queue, got + [f])
  {
    var st := Pump(true);
    StepKeepsInv(s, st);
    assert ([f] + queue)[1..] == queue;
    LeadsOne(may, s, st);
    t, steps := Taken(s, st), [st];
  }

  /** One publish fails, and nothing else: the first of two messages is lost. */
  lemma LostPublishLosesMessage() returns (steps: seq<Step>)
    ensures Legal(IDLE, steps) && ReliableAll(Faults(true, false, false), IDLE, steps) && LostIn(Run(IDLE, steps), FIRST)
  {
    var may := Faults(true, false, false);
    var reach := IdleReachable();
    var s1, p1 := Sent(may, IDLE, {}, FIRST, [], false);
    var s2, p2 := Sent(may, s1, {FIRST}, SECOND, [], true);
    assert [] + [SECOND] == [SECOND] + [] && [] + [[SECOND]] == [[SECOND]];
    var s3, p3 := Arrived(may, s2, {FIRST, SECOND}, 2, SECOND, [], []);
    assert Pipeline(s3) == [[SECOND]];
    var rest := GapLosesMessage(s3, 0, SECOND, FIRST);
    SmoothIsReliable(may, s3, rest);
    LeadsOn(may, IDLE, s1, s2, p1, p2);
    LeadsOn(may, IDLE, s2, s3, p1 + p2, p3);
    LeadsOn(may, IDLE, s3, Run(s3, rest), (p1 + p2) + p3, rest);
    steps := ((p1 + p2) + p3) + rest;
  }

  lemma FirstReceived(may: Faults) returns (s: System, steps: seq<Step>)
    ensures Leads(may, IDLE, s, steps) && Idling(s, {FIRST}, 1, [], [], [[FIRST]])
  {
    var reach := IdleReachable();
    var s1, p1 := Sent(may, IDLE, {}, FIRST, [], true);
    assert [] + [FIRST] == [FIRST] + [] && [] + [[FIRST]] == [[FIRST]] + [] && [[FIRST]] + [] == [[FIRST]];
    var s2, p2 := Arrived(may, s1, {FIRST}, 1, FIRST, [], []);
    var s3, p3 := Pumped(may, s2, {FIRST}, 1, [FIRST], [], []);
    LeadsOn(may, IDLE, s1, s2, p1, p2);
    LeadsOn(may, IDLE, s2, s3, p1 + p2, p3);
    s, steps := s3, (p1 + p2) + p3;
  }

  lemma FirstPlanned(may: Faults, s: System) returns (t: System, steps: seq<Step>)
    requires Idling(s, {FIRST}, 1, [], [], [[FIRST]])
    ensures Leads(may, s, t, steps) && Inv(t) && t.client.persisted == {}
    ensures |t.client.jobs| == 1 && t.client.jobs[0].todo == {FIRST} && Removed(t.client.jobs, 0) == []
  {
    StepKeepsInv(s, Plan(0));
    assert Fresh(map[], [FIRST]) == {FIRST};
    LeadsOne(may, s, Plan(0));
    t, steps := Taken(s, Plan(0)), [Plan(0)];
  }

  /** One message arrives on an idle connection and its local write fails. From there everything works,
      and the message is lost. */
  lemma FailedWriteLosesMessage() returns (steps: seq<Step>)
    ensures Legal(IDLE, steps) && ReliableAll(Faults(false, false, true), IDLE, steps) && LostIn(Run(IDLE, steps), FIRST)
  {
    var may, fail := Faults(false, false, true), Abandon(0, {});
    var s1, p1 := FirstReceived(may);
    var s2, p2 := FirstPlanned(may, s1);
    var rest := AbandonedIsLost(s2, 0, {}, FIRST);
    LeadsOne(may, s2, fail);
    var s3 := Taken(s2, fail);
    SmoothIsReliable(may, s3, rest);
    LeadsOn(may, IDLE, s1, s2, p1, p2);
    LeadsOn(may, IDLE, s2, s3, p1 + p2, [fail]);
    LeadsOn(may, IDLE, s3, Run(s3, rest), (p1 + p2) + [fail], rest);
    steps := ((p1 + p2) + [fail]) + rest;
  }

  lemma BothQueued(may: Faults) returns (s: System, steps: seq<Step>)
    ensures Leads(may, IDLE, s, steps) && Idling(s, {FIRST, SECOND}, 2, [], [[FIRST]] + [[SECOND]], [])
  {
    var reach := IdleReachable();
    var rows := {FIRST, SECOND};
    var s1, p1 := Sent(may, IDLE, {}, FIRST, [], true);
    var s2, p2 := Sent(may, s1, {FIRST}, SECOND, [FIRST], true);
    assert [] + [[FIRST]] == [[FIRST]] && [SECOND] + [] == [SECOND];
    var s3, p3 := Arrived(may, s2, rows, 2, FIRST, [SECOND], []);
    var s4, p4 := Arrived(may, s3, rows, 2, SECOND, [], [[FIRST]]);
    LeadsOn(may, IDLE, s1, s2, p1, p2);
    LeadsOn(may, IDLE, s2, s3, p1 + p2, p3);
    LeadsOn(may, IDLE, s3, s4, (p1 + p2) + p3, p4);
    s, steps := s4, ((p1 + p2) + p3) + p4;
  }

  lemma BothReceived(may: Faults) returns (s: System, steps: seq<Step>)
    ensures Leads(may, IDLE, s, steps) && Idling(s, {FIRST, SECOND}, 2, [], [], [[FIRST]] + [[SECOND]])
  {
    var rows := {FIRST, SECOND};
    var s1, p1 := BothQueued(may);
    assert [] + [[FIRST]] == [[FIRST]] && [[SECOND]] + [] == [[SECOND]];
    var s2, p2 := Pumped(may, s1, rows, 2, [FIRST], [[SECOND]], []);
    var s3, p3 := Pumped(may, s2, rows, 2, [SECOND], [], [[FIRST]]);
    LeadsOn(may, IDLE, s1, s2, p1, p2);
    LeadsOn(may, IDLE, s2, s3, p1 + p2, p3);
    s, steps := s3, (p1 + p2) + p3;
  }

  /** Two messages arrive in order, and the second one's frame is planned first. The feed and the local
      database are faultless throughout, and a message is lost. */
  lemma EarlyPlanLosesMessage() returns (steps: seq<Step>, y: Item)
    ensures Legal(IDLE, steps) && ReliableAll(Faults(false, true, false), IDLE, steps) && LostIn(Run(IDLE, steps), y)
  {
    var may := Faults(false, true, false);
    var s1, p1 := BothReceived(may);
    assert s1.client.received[1] == [SECOND];
    assert Lower(FIRST, SECOND) && FIRST !in [SECOND] && SECOND in [SECOND] && !Kept(s1.client, FIRST);
    assert !FirstInLine(s1, [SECOND]);
    var rest;
    rest, y := EarlyPlanLoses(s1, 1);
    LeadsOne(may, s1, Plan(1));
    var s2 := Taken(s1, Plan(1));
    SmoothIsReliable(may, s2, rest);
    LeadsOn(may, IDLE, s1, s2, p1, [Plan(1)]);
    LeadsOn(may, IDLE, s2, Run(s2, rest), p1 + [Plan(1)], rest);
    steps := (p1 + [Plan(1)]) + rest;
  }
}
