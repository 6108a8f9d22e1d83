/** Zero loss over whole runs: when it holds, and that the condition is exact. */
module ZeroLoss {
  import opened Ports
  import opened Items
  import opened ReplayGate
  import opened Client
  import opened Delivery

  predicate Lower(y: Item, x: Item) {
    y.conv == x.conv && y.num < x.num
  }

  /** Neither in the inbox nor on the device. */
  predicate LostIn(s: System, y: Item) {
    y in s.accepted && y !in s.inbox && y !in s.client.persisted
  }

  ghost predicate NothingLost(s: System) {
    forall y :: y in s.accepted ==> y in s.inbox || y in s.client.persisted
  }

  /** A sent acknowledgement covers a row the device has not stored. */
  ghost predicate Misacked(s: System) {
    exists a, y :: a in s.acks && y in s.accepted && Covers(a, y) && y !in s.client.persisted
  }

  ghost predicate InJobs(jobs: seq<Job>, y: Item) {
    exists j :: 0 <= j < |jobs| && y in jobs[j].todo
  }

  /** Stored, or being stored by a batch in progress. */
  ghost predicate Kept(c: Store, y: Item) {
    y in c.persisted || InJobs(c.jobs, y)
  }

  /** The cursor in memory has passed a row that is neither: the next acknowledgement of its
      conversation will cover it. */
  ghost predicate Overtaken(s: System) {
    exists y :: y in s.accepted && y.num <= Cursor(s, y.conv) && !Kept(s.client, y)
  }

  /** The cursors on disk, which a restarted app trusts, only cover stored rows. */
  ghost predicate DiskHonest(s: System) {
    forall y :: y in s.accepted && y.num <= SeenOf(s.client.disk, y.conv) ==> y in s.client.persisted
  }

  ghost predicate InFirst(queue: seq<seq<Item>>, n: nat, y: Item) {
    exists i :: 0 <= i < n && i < |queue| && y in queue[i]
  }

  /** In a frame on its way to the client's planner. */
  ghost predicate OnWay(s: System, y: Item) {
    InFirst(Pipeline(s), |Pipeline(s)|, y)
  }

  ghost predicate Coming(s: System, c: Conn, y: Item) {
    OnWay(s, y) || y in c.page
  }

  /** `frame` may follow `queue`: every lower row of its conversations is kept or before it. */
  ghost predicate Fits(s: System, queue: seq<seq<Item>>, frame: seq<Item>) {
    forall x, y :: x in frame && y in s.accepted && Lower(y, x) ==>
      Kept(s.client, y) || InFirst(queue, |queue|, y) || y in frame
  }

  ghost predicate GapFree(s: System, queue: seq<seq<Item>>) {
    forall k, x, y :: 0 <= k < |queue| && x in queue[k] && y in s.accepted && Lower(y, x) ==>
      Kept(s.client, y) || InFirst(queue, k + 1, y)
  }

  /** Rows of the conversation being scanned, up to the scan position, are kept or coming. */
  ghost predicate Scanned(s: System, c: Conn) {
    c.pos.Some? ==> forall y :: y in s.accepted && y.conv == c.pos.value.conv && y.num <= c.pos.value.num ==>
      Kept(s.client, y) || Coming(s, c, y)
  }

  /** What was accepted before the connection attached is kept, coming, or still ahead of the scan. */
  ghost predicate SnapshotKept(s: System, c: Conn) {
    forall y :: y in c.snapshot ==>
      Kept(s.client, y) || Coming(s, c, y) || (!c.drained && y in s.inbox && Beyond(c.pos, y))
  }

  ghost predicate SafeConn(s: System, c: Conn) {
    && Fits(s, Pipeline(s), c.page)
    && Scanned(s, c) && SnapshotKept(s, c)
    && (c.gate.open ==> c.page == [] && c.drained)
  }

  ghost predicate Safe(s: System) {
    && !Misacked(s) && !Overtaken(s) && DiskHonest(s) && GapFree(s, Pipeline(s))
    && (s.conn.Some? ==> SafeConn(s, s.conn.value))
  }

  /** A frame may be planned: every lower row of its conversations is kept or in it. */
  ghost predicate FirstInLine(s: System, frame: seq<Item>) {
    forall x, y :: x in frame && y in s.accepted && Lower(y, x) ==> Kept(s.client, y) || y in frame
  }

  /** No batch in progress still has to store a row that `watermark` covers. */
  ghost predicate Settled(s: System, watermark: map<string, int>) {
    forall y :: InJobs(s.client.jobs, y) && Covers(watermark, y) ==> y in s.client.persisted
  }

  /** Nothing is given up with this batch: what it did not store is stored or in another batch. */
  ghost predicate Spared(c: Store, job: nat)
    requires job < |c.jobs|
  {
    forall y :: y in c.jobs[job].todo ==> y in c.persisted || InJobs(Removed(c.jobs, job), y)
  }

  function Only(watermark: map<string, int>, convs: set<string>): map<string, int> {
    map conv | conv in watermark && conv in convs :: watermark[conv]
  }

  /** What zero loss asks of the environment, at each step. Of the feed: an item forwarded or flushed
      leaves no lower row of its conversation behind. Of the client: a frame is not planned while a lower
      row of its conversations waits in another. Of the local database: a batch does not acknowledge, or
      note as its cursor on disk, what another has yet to store, and a failing write gives nothing up. */
  ghost predicate Gapless(s: System, st: Step)
    requires Enabled(s, st)
  {
    match st
    case Arrive(at, _, room) =>
      s.conn.Some? && s.conn.value.gate.open && room ==> Fits(s, Pipeline(s), [s.net[at]])
    case Finish(room) =>
      Finished(s.conn.value, room).Some? ==> Fits(s, Pipeline(s), Flushed(s.conn.value.gate))
    case Plan(at) => FirstInLine(s, s.client.received[at])
    case Complete(job) => Settled(s, s.client.jobs[job].watermark)
    case Abandon(job, noted) => Spared(s.client, job) && Settled(s, Only(s.client.jobs[job].watermark, noted))
    case _ => true
  }

  ghost predicate GaplessAll(s: System, steps: seq<Step>)
    requires Legal(s, steps)
    decreases |steps|
  {
    steps != [] ==> Gapless(s, steps[0]) && GaplessAll(Taken(s, steps[0]), steps[1..])
  }

  // ------------------------------------------------------------- small facts

  lemma NotOvertakenMeans(s: System, y: Item)
    requires !Overtaken(s) && y in s.accepted && y.num <= Cursor(s, y.conv)
    ensures Kept(s.client, y)
  {
  }

  lemma DeletedIsStored(s: System, y: Item)
    requires Inv(s) && !Misacked(s) && y in s.accepted && y !in s.inbox
    ensures y in s.client.persisted
  {
    assert Acknowledged(s, y);
  }

  lemma AppendKeepsFirst(queue: seq<seq<Item>>, f: seq<Item>, n: nat, y: Item)
    requires n <= |queue|
    ensures InFirst(queue, n, y) ==> InFirst(queue + [f], n, y) && InFirst(queue + [f], |queue| + 1, y)
    ensures y in f ==> InFirst(queue + [f], |queue| + 1, y)
  {
    if InFirst(queue, n, y) {
      var i :| 0 <= i < n && i < |queue| && y in queue[i];
      assert (queue + [f])[i] == queue[i];
    }
    assert (queue + [f])[|queue|] == f;
  }

  lemma AppendedFirst(queue: seq<seq<Item>>, f: seq<Item>, y: Item)
    ensures InFirst(queue + [f], |queue| + 1, y) ==> InFirst(queue, |queue|, y) || y in f
  {
    if InFirst(queue + [f], |queue| + 1, y) {
      var i :| 0 <= i < |queue| + 1 && y in (queue + [f])[i];
      if i < |queue| { assert y in queue[i]; }
    }
  }

  lemma AppendGapFree(s: System, queue: seq<seq<Item>>, f: seq<Item>)
    requires GapFree(s, queue)
    ensures GapFree(s, queue + [f]) <==> Fits(s, queue, f)
  {
    var all := queue + [f];
    if Fits(s, queue, f) {
      forall k, x, y | 0 <= k < |all| && x in all[k] && y in s.accepted && Lower(y, x)
        ensures Kept(s.client, y) || InFirst(all, k + 1, y)
      {
        if k < |queue| {
          assert x in queue[k];
          AppendKeepsFirst(queue, f, k + 1, y);
        } else {
          AppendKeepsFirst(queue, f, |queue|, y);
        }
      }
    }
    if GapFree(s, all) {
      forall x, y | x in f && y in s.accepted && Lower(y, x)
        ensures Kept(s.client, y) || InFirst(queue, |queue|, y) || y in f
      {
        assert x in all[|queue|];
        AppendedFirst(queue, f, y);
      }
    }
  }

  lemma NotFitting(s: System, queue: seq<seq<Item>>, frame: seq<Item>) returns (x: Item, y: Item)
    requires !Fits(s, queue, frame)
    ensures x in frame && y in s.accepted && Lower(y, x) && !Kept(s.client, y) && !InFirst(queue, |queue|, y) && y !in frame
  {
    x, y :| x in frame && y in s.accepted && Lower(y, x)
            && !(Kept(s.client, y) || InFirst(queue, |queue|, y) || y in frame);
  }

  /** Between a row and a higher one of the same conversation, the order holds only that conversation. */
  lemma ScanStaysInConversation(y: Item, p: Item, x: Item)
    requires y.conv == x.conv && !Less(p, y) && Less(p, x)
    ensures p.conv == y.conv && y.num <= p.num
  {
  }

  // ---------------------------------------------------- every step keeps Safe

  lemma SendKeepsSafe(s: System, st: Step)
    requires Inv(s) && Safe(s) && Enabled(s, st) && st.Send?
    ensures Safe(Taken(s, st))
  {
    var s' := Taken(s, st);
    SendKeepsHonest(s, s', NextItem(s, st));
    PipelineFrom(s);
    assert Pipeline(s') == Pipeline(s);
    if s.conn.Some? {
      var c := s.conn.value;
      assert Frames(c)[|c.queue|] == c.page;
    }
  }

  /** A new row is beyond every cursor. */
  lemma SendKeepsHonest(s: System, s': System, z: Item)
    requires Inv(s) && Safe(s) && s'.client == s.client && s'.acks == s.acks && z.num == SeenOf(s.lastSeq, z.conv) + 1
    requires s.accepted <= s'.accepted <= s.accepted + {z}
    ensures !Overtaken(s') && !Misacked(s') && DiskHonest(s')
  {
    forall y | y in s'.accepted && y.num <= Cursor(s', y.conv) ensures Kept(s'.client, y) { NotOvertakenMeans(s, y); }
    forall a, y | a in s'.acks && y in s'.accepted && Covers(a, y) ensures y in s'.client.persisted {
      assert Bounded(a, s.lastSeq) && y.num <= SeenOf(a, y.conv);
      assert y in s.accepted;
    }
  }

  lemma PipelineFrom(s: System)
    requires Inv(s)
    ensures forall k :: 0 <= k < |Pipeline(s)| ==> AllIn(Pipeline(s)[k], s.accepted)
  {
    forall k | 0 <= k < |Pipeline(s)| ensures AllIn(Pipeline(s)[k], s.accepted) {
      var n := |s.client.received|;
      if k >= n { assert Frames(s.conn.value)[k - n] == Pipeline(s)[k]; }
    }
  }

  /** When the connection goes, the frames the client has received stay. */
  lemma DroppedKeepsSafe(s: System, s': System)
    requires Safe(s) && s' == s.(conn := None, net := s'.net)
    ensures Safe(s')
  {
    var p, p' := Pipeline(s), Pipeline(s');
    assert p' == p[..|p'|];
    forall k, x, y | 0 <= k < |p'| && x in p'[k] && y in s.accepted && Lower(y, x)
      ensures Kept(s.client, y) || InFirst(p', k + 1, y)
    {
      assert x in p[k];
      if !Kept(s.client, y) {
        var i :| 0 <= i < k + 1 && i < |p| && y in p[i];
        assert y in p'[i];
      }
    }
  }

  /** Something is appended to the frames on their way. */
  lemma AppendedSafe(s: System, s': System, f: seq<Item>)
    requires Safe(s) && s'.(conn := s.conn, net := s.net) == s && s.conn.Some? && s'.conn.Some?
    requires Pipeline(s') == Pipeline(s) + [f] && Fits(s, Pipeline(s), f)
    requires
      var c, c' := s.conn.value, s'.conn.value;
      && c'.pos == c.pos && c'.snapshot == c.snapshot && c'.drained == c.drained
      && (c'.page == c.page || (c'.page == [] && f == c.page)) && (c'.gate.open ==> c'.page == [] && c'.drained)
    ensures Safe(s')
  {
    var p := Pipeline(s);
    AppendGapFree(s, p, f);
    assert GapFree(s', p + [f]);
    forall y ensures Coming(s, s.conn.value, y) ==> Coming(s', s'.conn.value, y) { AppendKeepsFirst(p, f, |p|, y); }
    forall x, y | x in s'.conn.value.page && y in s.accepted && Lower(y, x)
      ensures Kept(s.client, y) || InFirst(p + [f], |p| + 1, y) || y in s'.conn.value.page
    {
      AppendKeepsFirst(p, f, |p|, y);
    }
  }

  /** The frames on their way are the same. */
  lemma UnmovedSafe(s: System, s': System)
    requires Safe(s) && s'.(conn := s.conn, net := s.net, client := s.client) == s && s.conn.Some? && s'.conn.Some?
    requires Pipeline(s') == Pipeline(s) && s'.client.(received := s.client.received) == s.client
    requires
      var c, c' := s.conn.value, s'.conn.value;
      && c'.pos == c.pos && c'.snapshot == c.snapshot && c'.drained == c.drained && c'.page == c.page
      && (c'.gate.open ==> c'.page == [] && c'.drained)
    ensures Safe(s')
  {
    assert forall y :: Kept(s'.client, y) <==> Kept(s.client, y);
    assert forall y :: OnWay(s', y) <==> OnWay(s, y);
  }

  lemma ArriveKeepsSafe(s: System, st: Step)
    requires Inv(s) && Safe(s) && Enabled(s, st) && (st.Arrive? || st.Drop?) && Gapless(s, st)
    ensures Safe(Taken(s, st))
  {
    var s' := Taken(s, st);
    if s.conn.None? || s'.conn.None? {
      DroppedKeepsSafe(s, s');
    } else if st.Arrive? && s.conn.value.gate.open {
      assert Pipeline(s') == Pipeline(s) + [[s.net[st.at]]];
      AppendedSafe(s, s', [s.net[st.at]]);
    } else {
      UnmovedSafe(s, s');
    }
  }

  lemma EmitKeepsSafe(s: System, st: Step)
    requires Inv(s) && Safe(s) && Enabled(s, st) && st.Emit?
    ensures Safe(Taken(s, st))
  {
    var s' := Taken(s, st);
    if s'.conn.None? {
      DroppedKeepsSafe(s, s');
    } else {
      assert Pipeline(s') == Pipeline(s) + [s.conn.value.page];
      AppendedSafe(s, s', s.conn.value.page);
    }
  }

  lemma AckKeepsSafe(s: System, st: Step)
    requires Inv(s) && Safe(s) && Enabled(s, st) && st.Ack?
    ensures Safe(Taken(s, st))
  {
    var s' := Taken(s, st);
    if s.conn.Some? {
      AckKeepsInv(s, st);
      forall y | y in s.conn.value.snapshot && y !in s'.inbox ensures y in s.client.persisted {
        DeletedIsStored(s', y);
      }
    }
  }

  /** The rows of a page, and every lower row of their conversations, are kept or coming. */
  lemma PageCovers(s: System, rows: seq<Item>, x: Item, y: Item)
    requires Inv(s) && Safe(s) && Enabled(s, Fetch(rows))
    requires x in rows && y in s.accepted && (y == x || Lower(y, x))
    ensures Kept(s.client, y) || OnWay(s, y) || y in Unseen(s.conn.value.after, rows)
  {
    var c := s.conn.value;
    UnseenFrom(c.after, rows);
    if y !in s.inbox {
      DeletedIsStored(s, y);
    } else if Beyond(c.pos, y) {
      if y !in rows {
        var last := rows[|rows| - 1];
        assert Less(last, y);
        var i :| 0 <= i < |rows| && rows[i] == x;
        LessTotal(last, x);
        LessTotal(x, y);
        LessTransitive(last, y, x);
        assert false;
      }
      if y.num <= SeenOf(c.after, y.conv) {
        NotOvertakenMeans(s, y);
      }
    } else {
      ScanStaysInConversation(y, c.pos.value, x);
    }
  }

  lemma FetchKeepsSafe(s: System, st: Step)
    requires Inv(s) && Safe(s) && Enabled(s, st) && st.Fetch?
    ensures Safe(Taken(s, st))
  {
    var s', c, rows := Taken(s, st), s.conn.value, st.rows;
    var c' := s'.conn.value;
    assert Pipeline(s') == Pipeline(s);
    UnseenFrom(c.after, rows);
    forall x, y | x in c'.page && y in s.accepted && Lower(y, x)
      ensures Kept(s.client, y) || OnWay(s, y) || y in c'.page
    {
      PageCovers(s, rows, x, y);
    }
    FetchedScanned(s, rows, s', c');
    FetchedSnapshot(s, rows, s', c');
  }

  lemma FetchedScanned(s: System, rows: seq<Item>, s': System, c': Conn)
    requires Inv(s) && Safe(s) && Enabled(s, Fetch(rows)) && c' == Fetched(s.conn.value, rows)
    requires Pipeline(s') == Pipeline(s) && s'.accepted == s.accepted && s'.client == s.client
    ensures Scanned(s', c')
  {
    if rows != [] {
      var p := rows[|rows| - 1];
      forall y | y in s.accepted && y.conv == p.conv && y.num <= p.num
        ensures Kept(s.client, y) || Coming(s', c', y)
      {
        assert p in rows && p in s.accepted;
        PageCovers(s, rows, p, y);
      }
    }
  }

  lemma FetchedSnapshot(s: System, rows: seq<Item>, s': System, c': Conn)
    requires Inv(s) && Safe(s) && Enabled(s, Fetch(rows)) && c' == Fetched(s.conn.value, rows)
    requires Pipeline(s') == Pipeline(s) && s'.inbox == s.inbox && s'.client == s.client
    ensures SnapshotKept(s', c')
  {
    forall y | y in s.conn.value.snapshot
      ensures Kept(s.client, y) || Coming(s', c', y) || (!c'.drained && y in s.inbox && Beyond(c'.pos, y))
    {
      if y in rows { PageCovers(s, rows, y, y); }
    }
  }

  lemma FinishKeepsSafe(s: System, st: Step)
    requires Inv(s) && Safe(s) && Enabled(s, st) && st.Finish? && Gapless(s, st)
    ensures Safe(Taken(s, st))
  {
    var s' := Taken(s, st);
    if s'.conn.None? {
      DroppedKeepsSafe(s, s');
    } else if Flushed(s.conn.value.gate) == [] {
      UnmovedSafe(s, s');
    } else {
      assert Pipeline(s') == Pipeline(s) + [Flushed(s.conn.value.gate)];
      AppendedSafe(s, s', Flushed(s.conn.value.gate));
    }
  }

  lemma PumpKeepsSafe(s: System, st: Step)
    requires Inv(s) && Safe(s) && Enabled(s, st) && st.Pump?
    ensures Safe(Taken(s, st))
  {
    var s' := Taken(s, st);
    if st.written {
      assert Pipeline(s') == Pipeline(s);
      UnmovedSafe(s, s');
    } else {
      DroppedKeepsSafe(s, s');
    }
  }

  /** Planning a frame keeps what was kept and takes in the whole frame. */
  lemma PlannedKeeps(s: System, frame: seq<Item>)
    ensures forall y :: Kept(s.client, y) ==> Kept(Planned(s.client, frame), y)
    ensures !Overtaken(s) && AllIn(frame, s.accepted) ==> forall y :: y in frame ==> Kept(Planned(s.client, frame), y)
  {
    var jobs, jobs' := s.client.jobs, Planned(s.client, frame).jobs;
    assert jobs'[|jobs|].todo == Fresh(s.client.cursors, frame);
    forall y | InJobs(jobs, y) ensures InJobs(jobs', y) {
      var j :| 0 <= j < |jobs| && y in jobs[j].todo;
      assert y in jobs'[j].todo;
    }
    if !Overtaken(s) && AllIn(frame, s.accepted) {
      forall y | y in frame ensures Kept(Planned(s.client, frame), y) {
        if y.num <= Cursor(s, y.conv) { NotOvertakenMeans(s, y); } else { assert y in jobs'[|jobs|].todo; }
      }
    }
  }

  lemma PlanDoesNotOvertake(s: System, at: nat)
    requires Inv(s) && Safe(s) && at < |s.client.received| && FirstInLine(s, s.client.received[at])
    ensures !Overtaken(Taken(s, Plan(at)))
  {
    var s', frame := Taken(s, Plan(at)), s.client.received[at];
    PlannedAtKeeps(s, at);
    forall y | y in s'.accepted && y.num <= Cursor(s', y.conv) ensures Kept(s'.client, y) {
      if y.num <= Cursor(s, y.conv) {
        NotOvertakenMeans(s, y);
      } else {
        AdvancedCovers(s.client.cursors, frame, y.conv);
        var z :| z in frame && z.conv == y.conv && z.num == Cursor(s', y.conv);
        if !Lower(y, z) { assert SameKey(y, z); }
      }
    }
  }

  lemma PlannedAtKeeps(s: System, at: nat)
    requires Inv(s) && at < |s.client.received|
    ensures forall y :: Kept(s.client, y) ==> Kept(PlannedAt(s.client, at), y)
    ensures !Overtaken(s) ==> forall y :: y in s.client.received[at] ==> Kept(PlannedAt(s.client, at), y)
  {
    PlannedKeeps(s, s.client.received[at]);
    var a, b := Planned(s.client, s.client.received[at]), PlannedAt(s.client, at);
    assert a.jobs == b.jobs && a.persisted == b.persisted;
    assert forall y :: Kept(a, y) <==> Kept(b, y);
  }

  /** The rest of the frames, without one that was planned. */
  lemma RemovedGapFree(s: System, s': System, at: nat)
    requires GapFree(s, Pipeline(s)) && at < |Pipeline(s)| && s'.accepted == s.accepted
    requires forall y :: Kept(s.client, y) || y in Pipeline(s)[at] ==> Kept(s'.client, y)
    ensures GapFree(s', Removed(Pipeline(s), at))
    ensures forall y :: OnWay(s, y) ==> Kept(s'.client, y) || InFirst(Removed(Pipeline(s), at), |Pipeline(s)| - 1, y)
  {
    var p := Pipeline(s);
    var p' := Removed(p, at);
    forall n, y | 0 <= n <= |p| && InFirst(p, n, y)
      ensures Kept(s'.client, y) || InFirst(p', if n <= at then n else n - 1, y)
    {
      var i :| 0 <= i < n && i < |p| && y in p[i];
      if i != at { assert y in p'[if i < at then i else i - 1]; }
    }
    forall k, x, y | 0 <= k < |p'| && x in p'[k] && y in s.accepted && Lower(y, x)
      ensures Kept(s'.client, y) || InFirst(p', k + 1, y)
    {
      assert x in p[if k < at then k else k + 1];
    }
  }

  lemma PlanKeepsSafe(s: System, st: Step)
    requires Inv(s) && Safe(s) && Enabled(s, st) && st.Plan? && Gapless(s, st)
    ensures Safe(Taken(s, st))
  {
    var s' := Taken(s, st);
    PlanDoesNotOvertake(s, st.at);
    PlannedAtKeeps(s, st.at);
    assert Pipeline(s)[st.at] == s.client.received[st.at];
    assert Pipeline(s') == Removed(Pipeline(s), st.at);
    RemovedGapFree(s, s', st.at);
    if s.conn.Some? { PlanKeepsSafeConn(s, s', s.conn.value); }
  }

  lemma PlanKeepsSafeConn(s: System, s': System, c: Conn)
    requires SafeConn(s, c) && s'.accepted == s.accepted && s'.inbox == s.inbox
    requires forall y :: Kept(s.client, y) ==> Kept(s'.client, y)
    requires forall y :: OnWay(s, y) ==> Kept(s'.client, y) || OnWay(s', y)
    ensures SafeConn(s', c)
  {
  }

  /** A step of the local store that keeps what was kept, and covers with cursors and acks only stored
      rows, keeps delivery safe. */
  lemma StoreStepSafe(s: System, s': System)
    requires Inv(s) && Safe(s) && s'.client.cursors == s.client.cursors && s'.client.received == s.client.received
    requires s'.accepted == s.accepted && s'.inbox == s.inbox && s'.conn == s.conn
    requires s.client.persisted <= s'.client.persisted
    requires forall y :: y in s.accepted && Kept(s.client, y) ==> Kept(s'.client, y)
    requires DiskHonest(s') && !Misacked(s')
    ensures Safe(s')
  {
    assert !Overtaken(s') by {
      forall y | y in s'.accepted && y.num <= Cursor(s', y.conv) ensures Kept(s'.client, y) { NotOvertakenMeans(s, y); }
    }
    assert Pipeline(s') == Pipeline(s);
    forall k, x, y | 0 <= k < |Pipeline(s)| && x in Pipeline(s)[k] && y in s.accepted && Lower(y, x)
      ensures Kept(s'.client, y) || InFirst(Pipeline(s'), k + 1, y)
    {
      assert Kept(s.client, y) || InFirst(Pipeline(s), k + 1, y);
    }
    if s.conn.Some? {
      assert SafeConn(s, s.conn.value);
      StoreStepKeepsQueue(s, s', s.conn.value);
    }
  }

  lemma StoreStepKeepsQueue(s: System, s': System, c: Conn)
    requires SafeConn(s, c) && s'.accepted == s.accepted && s'.inbox == s.inbox && Pipeline(s') == Pipeline(s)
    requires c.snapshot <= s.accepted
    requires forall y :: y in s.accepted && Kept(s.client, y) ==> Kept(s'.client, y)
    ensures SafeConn(s', c)
  {
    assert forall y :: OnWay(s', y) <==> OnWay(s, y);
  }

  lemma SaveKeepsSafe(s: System, st: Step)
    requires Inv(s) && Safe(s) && Enabled(s, st) && st.Save?
    ensures Safe(Taken(s, st))
  {
    StoreStepKeeps(s, st);
    StoreStepSafe(s, Taken(s, st));
  }

  /** What was kept stays kept, unless a failing write gives it up. */
  lemma StoreStepKeeps(s: System, st: Step)
    requires Enabled(s, st) && (st.Save? || st.Complete? || st.Abandon?)
    requires st.Abandon? ==> Spared(s.client, st.job)
    ensures forall y :: Kept(s.client, y) ==> Kept(Taken(s, st).client, y)
  {
    var s' := Taken(s, st);
    var jobs, jobs' := s.client.jobs, s'.client.jobs;
    forall y | Kept(s.client, y) ensures Kept(s'.client, y) {
      if !st.Save? {
        RemovedJobs(jobs, st.job, y);
      } else if InJobs(jobs, y) && y != st.item {
        var j :| 0 <= j < |jobs| && y in jobs[j].todo;
        assert y in jobs'[j].todo;
      }
    }
  }

  lemma RemovedJobs(jobs: seq<Job>, job: nat, y: Item)
    requires job < |jobs|
    ensures InJobs(Removed(jobs, job), y) ==> InJobs(jobs, y)
    ensures InJobs(jobs, y) ==> InJobs(Removed(jobs, job), y) || y in jobs[job].todo
  {
    var rest := Removed(jobs, job);
    if InJobs(rest, y) {
      var j :| 0 <= j < |rest| && y in rest[j].todo;
      assert y in jobs[if j < job then j else j + 1].todo;
    }
    if InJobs(jobs, y) && y !in jobs[job].todo {
      var j :| 0 <= j < |jobs| && y in jobs[j].todo;
      assert y in rest[if j < job then j else j - 1].todo;
    }
  }

  /** A watermark that nothing in progress is behind covers only stored rows. */
  lemma SettledIsStored(s: System, job: nat, noted: set<string>, y: Item)
    requires Inv(s) && Safe(s) && job < |s.client.jobs| && y in s.accepted
    requires Covers(Only(s.client.jobs[job].watermark, noted), y)
    ensures Kept(s.client, y)
    ensures Settled(s, Only(s.client.jobs[job].watermark, noted)) ==> y in s.client.persisted
  {
    assert JobSound(s, s.client.jobs[job]);
    NotOvertakenMeans(s, y);
  }

  lemma EndedKeepsSafe(s: System, st: Step)
    requires Inv(s) && Safe(s) && Enabled(s, st) && (st.Complete? || st.Abandon?) && Gapless(s, st)
    ensures Safe(Taken(s, st))
  {
    var s', job := Taken(s, st), s.client.jobs[st.job];
    var noted := if st.Complete? then job.watermark.Keys else st.noted;
    assert Only(job.watermark, job.watermark.Keys) == job.watermark;
    StoreStepKeeps(s, st);
    forall y | y in s.accepted && Covers(Only(job.watermark, noted), y) ensures y in s.client.persisted {
      SettledIsStored(s, st.job, noted, y);
    }
    EndedHonest(s, st.job, noted);
    StoreStepSafe(s, s');
  }

  lemma EndedHonest(s: System, job: nat, noted: set<string>)
    requires Inv(s) && DiskHonest(s) && job < |s.client.jobs|
    requires forall y :: y in s.accepted && Covers(Only(s.client.jobs[job].watermark, noted), y) ==> y in s.client.persisted
    ensures DiskHonest(s.(client := Ended(s.client, job, noted)))
  {
    assert JobSound(s, s.client.jobs[job]);
  }

  lemma RestartKeepsSafe(s: System)
    requires Inv(s) && Safe(s)
    ensures Safe(Taken(s, Restart))
  {
  }

  lemma StepKeepsSafe(s: System, st: Step)
    requires Inv(s) && Safe(s) && Enabled(s, st) && Gapless(s, st)
    ensures Safe(Taken(s, st))
  {
    match st
    case Send(_, _, _, _, _) => SendKeepsSafe(s, st);
    case Arrive(_, _, _) => ArriveKeepsSafe(s, st);
    case Drop(_) => ArriveKeepsSafe(s, st);
    case Emit(_) => EmitKeepsSafe(s, st);
    case Connect(_, _, _) => ConnectKeepsSafe(s, st);
    case Fetch(_) => FetchKeepsSafe(s, st);
    case Finish(_) => FinishKeepsSafe(s, st);
    case Pump(_) => PumpKeepsSafe(s, st);
    case Plan(_) => PlanKeepsSafe(s, st);
    case Save(_, _) => SaveKeepsSafe(s, st);
    case Complete(_) => EndedKeepsSafe(s, st);
    case Abandon(_, _) => EndedKeepsSafe(s, st);
    case Restart => RestartKeepsSafe(s);
    case Ack(_) => AckKeepsSafe(s, st);
    case Disconnect => DroppedKeepsSafe(s, Taken(s, st));
  }

  lemma ConnectKeepsSafe(s: System, st: Step)
    requires Inv(s) && Safe(s) && Enabled(s, st) && st.Connect?
    ensures Safe(Taken(s, st))
  {
    var s', none := Taken(s, st), s.(conn := None);
    DroppedKeepsSafe(s, none);
    assert Pipeline(s') == Pipeline(none);
    forall y | y in s.accepted && y !in s.inbox ensures y in s.client.persisted { DeletedIsStored(s, y); }
  }

  // ------------------------------------------------------------ the theorems

  /** On every run at all, whatever the feed and the local database do: a row can only be missing if a
      sent acknowledgement covers it unstored. A client whose acknowledgements mean "everything up to
      here is stored" loses nothing. */
  lemma HonestAcksLoseNothing(steps: seq<Step>)
    requires Legal(INITIAL, steps)
    ensures Misacked(Run(INITIAL, steps)) || NothingLost(Run(INITIAL, steps))
  {
    InitialInv();
    RunKeepsInv(INITIAL, steps);
    var s := Run(INITIAL, steps);
    if !Misacked(s) {
      forall y | y in s.accepted && y !in s.inbox ensures y in s.client.persisted { DeletedIsStored(s, y); }
    }
  }

  /** And such a row is gone as soon as that acknowledgement arrives. */
  lemma MisackedRowIsOneAckAway(s: System, a: map<string, int>, y: Item)
    requires Inv(s) && a in s.acks && y in s.accepted && Covers(a, y) && y !in s.client.persisted
    ensures Enabled(s, Ack(a)) && LostIn(Taken(s, Ack(a)), y)
  {
  }

  /** Zero loss and complete replay: through any legal mix of sends, lost or late publishes, reconnects
      with current, stale or foreign tokens, replay pages, concurrent local writes, restarts and repeated
      acks, as long as the feed leaves no gap, the client plans no frame ahead of a lower row and the local
      database gives nothing up, every accepted row is in the inbox or on the device, and once the gate is
      open everything accepted before the connection attached is stored, being stored or on its way. */
  lemma {:induction false} GaplessRunsLoseNothing(s: System, steps: seq<Step>)
    requires Inv(s) && Safe(s) && Legal(s, steps) && GaplessAll(s, steps)
    ensures
      var s' := Run(s, steps);
      && Inv(s') && Safe(s') && NothingLost(s')
      && (s'.conn.Some? && s'.conn.value.gate.open ==>
            forall y :: y in s'.conn.value.snapshot ==> Kept(s'.client, y) || OnWay(s', y))
    decreases |steps|
  {
    if steps == [] {
      forall y | y in s.accepted && y !in s.inbox ensures y in s.client.persisted { DeletedIsStored(s, y); }
    } else {
      StepKeepsInv(s, steps[0]);
      StepKeepsSafe(s, steps[0]);
      GaplessRunsLoseNothing(Taken(s, steps[0]), steps[1..]);
    }
  }

  lemma InitialSafe()
    ensures Inv(INITIAL) && Safe(INITIAL)
  {
    InitialInv();
  }

  /** The condition is exact, step by step. */
  lemma GaplessIsExact(s: System, st: Step)
    requires Inv(s) && Safe(s) && Enabled(s, st)
    ensures Safe(Taken(s, st)) <==> Gapless(s, st)
  {
    if Gapless(s, st) {
      StepKeepsSafe(s, st);
    } else if st.Complete? || st.Abandon? {
      EndedUnsafe(s, st);
    } else if st.Plan? {
      PlanUnsafe(s, st.at);
      assert Taken(s, st) == s.(client := PlannedAt(s.client, st.at));
    } else {
      var s', c := Taken(s, st), s.conn.value;
      var f := if st.Arrive? then [s.net[st.at]] else Flushed(c.gate);
      assert Pipeline(s') == Pipeline(s) + [f];
      AppendGapFree(s, Pipeline(s), f);
      assert GapFree(s', Pipeline(s')) ==> GapFree(s, Pipeline(s) + [f]);
    }
  }

  /** The row a frame was planned ahead of. */
  lemma PlanUnsafe(s: System, at: nat)
    requires Inv(s) && at < |s.client.received| && !FirstInLine(s, s.client.received[at])
    ensures Overtaken(s.(client := PlannedAt(s.client, at)))
  {
    var x, y := OutOfLine(s, s.client.received[at]);
    PlanPasses(s, at, x, y);
    PassedIsOvertaken(s.(client := PlannedAt(s.client, at)), y);
  }

  lemma OutOfLine(s: System, frame: seq<Item>) returns (x: Item, y: Item)
    requires !FirstInLine(s, frame)
    ensures x in frame && y in s.accepted && Lower(y, x) && !Kept(s.client, y) && y !in frame
  {
    x, y :| x in frame && y in s.accepted && Lower(y, x) && !(Kept(s.client, y) || y in frame);
  }

  lemma PassedIsOvertaken(s: System, y: Item)
    requires y in s.accepted && y.num <= SeenOf(s.client.cursors, y.conv) && !Kept(s.client, y)
    ensures Overtaken(s)
  {
  }

  /** Planning frames in the order they arrived is always in line. */
  lemma OldestIsFirstInLine(s: System)
    requires Safe(s) && s.client.received != []
    ensures FirstInLine(s, s.client.received[0])
  {
    assert Pipeline(s)[0] == s.client.received[0];
    forall x, y | x in s.client.received[0] && y in s.accepted && Lower(y, x)
      ensures Kept(s.client, y) || y in s.client.received[0]
    {
      assert Kept(s.client, y) || InFirst(Pipeline(s), 1, y);
    }
  }

  /** A batch was planned whose watermark covers `y`, and `y` is not being stored. */
  ghost predicate LeftBehind(was: Store, c: Store, y: Item) {
    && !Kept(c, y) && y.num <= SeenOf(c.cursors, y.conv)
    && |c.jobs| == |was.jobs| + 1 && Covers(c.jobs[|was.jobs|].watermark, y)
  }

  lemma PlanPasses(s: System, at: nat, x: Item, y: Item)
    requires Inv(s) && at < |s.client.received| && x in s.client.received[at] && y in s.accepted && y.conv == x.conv
    requires !Kept(s.client, y) && (y !in s.client.received[at] || (!y.overlay && y.num <= Cursor(s, y.conv)))
    requires y.num < x.num || y.num <= Cursor(s, y.conv)
    ensures LeftBehind(s.client, PlannedAt(s.client, at), y)
  {
    var frame, c := s.client.received[at], PlannedAt(s.client, at);
    AdvancedCovers(s.client.cursors, frame, x.conv);
    assert AllIn(frame, s.accepted);
    forall j | 0 <= j < |c.jobs| ensures y !in c.jobs[j].todo {
      assert j < |s.client.jobs| ==> y !in s.client.jobs[j].todo;
    }
  }

  lemma EndedUnsafe(s: System, st: Step)
    requires Inv(s) && Safe(s) && Enabled(s, st) && (st.Complete? || st.Abandon?) && !Gapless(s, st)
    ensures !Safe(Taken(s, st))
  {
    var s', job := Taken(s, st), s.client.jobs[st.job];
    var noted := if st.Complete? then job.watermark.Keys else st.noted;
    assert Only(job.watermark, job.watermark.Keys) == job.watermark;
    if !Settled(s, Only(job.watermark, noted)) {
      var y :| InJobs(s.client.jobs, y) && Covers(Only(job.watermark, noted), y) && y !in s.client.persisted;
      var j :| 0 <= j < |s.client.jobs| && y in s.client.jobs[j].todo;
      assert JobSound(s, s.client.jobs[j]);
      assert y.num <= SeenOf(s'.client.disk, y.conv);
    } else {
      var y :| y in job.todo && y !in s.client.persisted && !InJobs(Removed(s.client.jobs, st.job), y);
      assert JobSound(s, job);
      assert !Kept(s'.client, y);
    }
  }

  /** What the gateway itself can check before it enqueues: the lower rows still in the inbox are queued.
      It is enough, because rows no longer there are stored. */
  lemma InboxShowsFit(s: System, queue: seq<seq<Item>>, frame: seq<Item>)
    requires Inv(s) && Safe(s)
    requires forall x, y :: x in frame && y in s.inbox && Lower(y, x) ==> InFirst(queue, |queue|, y) || y in frame
    ensures Fits(s, queue, frame)
  {
    forall x, y | x in frame && y in s.accepted && Lower(y, x)
      ensures Kept(s.client, y) || InFirst(queue, |queue|, y) || y in frame
    {
      if y !in s.inbox { DeletedIsStored(s, y); }
    }
  }
}
