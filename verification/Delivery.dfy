/** The delivery path of one recipient device as an interleaved step system: accept, inbox rows,
    live feed, replay scan, gate, outbound queue, the shipped client, and its cumulative acks. */
module Delivery {
  import opened Ports
  import opened Items
  import opened ReplayGate
  import opened Client

  const REPLAY_BATCH: nat := 100
  const OUTBOUND_QUEUE: nat := 512

  /** One connection. `pos` is the replay scan's keyset position, `page` a fetched batch not yet
      emitted, `queue` the outbound frames, `sent` every item ever enqueued on it, `snapshot` what had
      been accepted when it attached. */
  datatype Conn = Conn(
    gate: GateState, after: map<string, int>, pos: Option<Item>, page: seq<Item>, drained: bool,
    queue: seq<seq<Item>>, sent: seq<Item>, snapshot: set<Item>)

  /** `accepted` is every row ever written for the device, `inbox` those not yet deleted, `net` the
      published payloads in transit on its subject, `acks` every acknowledgement ever sent (any may
      arrive late, repeatedly or never), `current` the resume token on record. */
  datatype System = System(
    lastSeq: map<string, int>, accepted: set<Item>, inbox: set<Item>, net: seq<Item>,
    conn: Option<Conn>, client: Store, acks: set<map<string, int>>, current: Option<nat>, minted: nat)

  const INITIAL: System := System(map[], {}, {}, [], None, Store(map[], map[], {}, [], []), {}, None, 0)

  datatype Step =
    | Send(conv: string, uuid: string, overlay: bool, toDevice: bool, published: bool)
    | Arrive(at: nat, again: bool, room: bool)
    | Drop(at: nat)
    | Connect(presented: nat, hello: map<string, int>, rotated: bool)
    | Fetch(rows: seq<Item>)
    | Emit(room: bool)
    | Finish(room: bool)
    | Pump(written: bool)
    | Plan(at: nat)
    | Save(job: nat, item: Item)
    | Complete(job: nat)
    | Abandon(job: nat, noted: set<string>)
    | Restart
    | Ack(upTo: map<string, int>)
    | Disconnect

  // ---------------------------------------------------------------- the steps

  function NextItem(s: System, st: Step): Item
    requires st.Send?
  {
    Item(st.conv, SeenOf(s.lastSeq, st.conv) + 1, st.uuid, st.overlay)
  }

  ghost predicate Beyond(pos: Option<Item>, x: Item) {
    pos.Some? ==> Less(pos.value, x)
  }

  /** `rows` is the lowest page of the inbox past `pos`; a short page is the last one. */
  ghost predicate NextPage(inbox: set<Item>, pos: Option<Item>, rows: seq<Item>) {
    && |rows| <= REPLAY_BATCH
    && Ascending(rows)
    && (forall x :: x in rows ==> x in inbox && Beyond(pos, x))
    && (forall x :: x in inbox && Beyond(pos, x) && x !in rows ==>
          |rows| == REPLAY_BATCH && Less(rows[|rows| - 1], x))
  }

  ghost predicate Within(a: map<string, int>, b: map<string, int>) {
    forall conv :: conv in a ==> a[conv] <= SeenOf(b, conv)
  }

  ghost predicate Enabled(s: System, st: Step) {
    match st
    case Send(conv, _, _, _, _) => conv != ""
    case Arrive(at, _, room) => at < |s.net| && HasRoom(s, room)
    case Drop(at) => at < |s.net|
    // Only the device itself holds the current token, and it reports cursors it has reached.
    case Connect(presented, hello, _) => s.current == Some(presented) ==> Within(hello, s.client.cursors)
    case Fetch(rows) =>
      s.conn.Some? && !s.conn.value.gate.open && s.conn.value.page == [] && !s.conn.value.drained
      && NextPage(s.inbox, s.conn.value.pos, rows)
    case Emit(room) => s.conn.Some? && s.conn.value.page != [] && HasRoom(s, room)
    case Finish(room) =>
      s.conn.Some? && !s.conn.value.gate.open && s.conn.value.page == [] && s.conn.value.drained
      && HasRoom(s, room)
    case Pump(_) => s.conn.Some? && s.conn.value.queue != []
    // A client that opens a frame's items first may come to plan a later frame before it.
    case Plan(at) => at < |s.client.received|
    // The batches in progress are written concurrently, an item at a time.
    case Save(job, x) => job < |s.client.jobs| && x in s.client.jobs[job].todo
    case Complete(job) => job < |s.client.jobs| && s.client.jobs[job].todo == {}
    // A local write throws: what was not stored by then is never stored by this batch.
    case Abandon(job, noted) =>
      job < |s.client.jobs| && (noted == {} || s.client.jobs[job].todo == {})
      && noted <= s.client.jobs[job].watermark.Keys
    case Restart => true
    case Ack(upTo) => upTo in s.acks
    case Disconnect => s.conn.Some?
  }

  /** Other frames share the queue, so it may be full sooner than this. */
  ghost predicate HasRoom(s: System, room: bool) {
    s.conn.Some? && room ==> |s.conn.value.queue| < OUTBOUND_QUEUE
  }

  /** A full queue closes the connection: the slow-consumer policy. */
  function Enqueued(c: Conn, frame: seq<Item>, room: bool): Option<Conn> {
    if room then Some(c.(queue := c.queue + [frame], sent := c.sent + frame)) else None
  }

  function LiveArrived(c: Conn, x: Item, room: bool): Option<Conn> {
    match HoldOf(c.gate)
    case Forward => Enqueued(c, [x], room)
    case Buffer => Some(c.(gate := Held(c.gate, x)))
    case Overflow => None
  }

  function Fetched(c: Conn, rows: seq<Item>): Conn {
    c.(pos := if rows == [] then c.pos else Some(rows[|rows| - 1]),
       page := Unseen(c.after, rows),
       drained := |rows| < REPLAY_BATCH)
  }

  /** The scan skips rows at or below the honoured cursors. */
  function Unseen(after: map<string, int>, rows: seq<Item>): seq<Item> {
    if rows == [] then []
    else Unseen(after, rows[..|rows| - 1])
         + if rows[|rows| - 1].num > SeenOf(after, rows[|rows| - 1].conv) then [rows[|rows| - 1]] else []
  }

  function Emitted(c: Conn, room: bool): Option<Conn> {
    Enqueued(c.(gate := c.gate.(seen := Advanced(c.gate.seen, c.page)), page := []), c.page, room)
  }

  function Finished(c: Conn, room: bool): Option<Conn> {
    var pending := Flushed(c.gate);
    if pending != [] && !room then None
    else
      Some(c.(gate := GateState(true, true, map[], []),
              queue := if pending == [] then c.queue else c.queue + [pending], sent := c.sent + pending))
  }

  function Attached(s: System, after: map<string, int>): Conn {
    Conn(NewGate(false), after, None, [], false, [], [], s.accepted)
  }

  /** An ack deletes the rows its well-formed cursors cover. */
  predicate Covers(upTo: map<string, int>, x: Item) {
    x.conv in upTo && x.conv != "" && upTo[x.conv] > 0 && x.num <= upTo[x.conv]
  }

  function Removed<T>(s: seq<T>, at: nat): seq<T>
    requires at < |s|
  {
    s[..at] + s[at + 1..]
  }

  function PlannedAt(c: Store, at: nat): Store
    requires at < |c.received|
  {
    Planned(c.(received := Removed(c.received, at)), c.received[at])
  }

  /** A batch in progress ends, with the cursor rows of `noted` on disk. */
  function Ended(c: Store, job: nat, noted: set<string>): Store
    requires job < |c.jobs|
  {
    c.(disk := Noted(c.disk, c.jobs[job].watermark, noted), jobs := Removed(c.jobs, job))
  }

  function Taken(s: System, st: Step): System
    requires st.Arrive? ==> st.at < |s.net|
    requires st.Drop? ==> st.at < |s.net|
    requires st.Fetch? || st.Emit? || st.Finish? || st.Pump? ==> s.conn.Some?
    requires st.Pump? ==> s.conn.value.queue != []
    requires st.Plan? ==> st.at < |s.client.received|
    requires st.Save? || st.Complete? || st.Abandon? ==> st.job < |s.client.jobs|
  {
    match st
    case Send(conv, uuid, overlay, toDevice, published) =>
      var x := NextItem(s, st);
      var s' := s.(lastSeq := s.lastSeq[conv := x.num]);
      if !toDevice then s'
      else s'.(accepted := s.accepted + {x}, inbox := s.inbox + {x},
               net := if published then s.net + [x] else s.net)
    case Arrive(at, again, room) =>
      s.(net := if again then s.net else Removed(s.net, at),
         conn := if s.conn.None? then None else LiveArrived(s.conn.value, s.net[at], room))
    case Drop(at) => s.(net := Removed(s.net, at))
    case Connect(presented, hello, rotated) =>
      var after := if s.current == Some(presented) then hello else map[];
      s.(conn := Some(Attached(s, after)),
         current := if rotated then Some(s.minted) else s.current, minted := s.minted + 1)
    case Fetch(rows) => s.(conn := Some(Fetched(s.conn.value, rows)))
    case Emit(room) => s.(conn := Emitted(s.conn.value, room))
    case Finish(room) => s.(conn := Finished(s.conn.value, room))
    case Pump(written) =>
      var c := s.conn.value;
      if !written then s.(conn := None)
      else
        s.(conn := Some(c.(queue := c.queue[1..])), client := s.client.(received := s.client.received + [c.queue[0]]))
    case Plan(at) => s.(client := PlannedAt(s.client, at))
    case Save(job, x) =>
      var batch := s.client.jobs[job];
      s.(client := s.client.(persisted := s.client.persisted + {x},
                             jobs := s.client.jobs[job := batch.(todo := batch.todo - {x})]))
    case Complete(job) =>
      var w := s.client.jobs[job].watermark;
      s.(client := Ended(s.client, job, w.Keys), acks := s.acks + {w})
    case Abandon(job, noted) => s.(client := Ended(s.client, job, noted))
    // The app starts again with the cursors on disk.
    case Restart => s.(client := s.client.(cursors := s.client.disk, jobs := [], received := []), conn := None)
    case Ack(upTo) => s.(inbox := set x | x in s.inbox && !Covers(upTo, x))
    case Disconnect => s.(conn := None)
  }

  ghost predicate Legal(s: System, steps: seq<Step>)
    decreases |steps|
  {
    steps != [] ==> Enabled(s, steps[0]) && Legal(Taken(s, steps[0]), steps[1..])
  }

  ghost function Run(s: System, steps: seq<Step>): System
    requires Legal(s, steps)
    decreases |steps|
  {
    if steps == [] then s else Run(Taken(s, steps[0]), steps[1..])
  }

  // ------------------------------------------------- what every run keeps

  function Cursor(s: System, conv: string): int {
    SeenOf(s.client.cursors, conv)
  }

  /** Everything in transit towards the client on a connection, in the order it will arrive. */
  function Frames(c: Conn): seq<seq<Item>> {
    c.queue + [c.page]
  }

  /** All frames on their way, in the order the client is to plan them. */
  function Pipeline(s: System): seq<seq<Item>> {
    s.client.received + if s.conn.Some? then s.conn.value.queue else []
  }

  ghost predicate AllIn(s: seq<Item>, t: set<Item>) {
    forall x :: x in s ==> x in t
  }

  /** Cursors, wherever they are kept, are positive and were handed out. */
  ghost predicate Bounded(cursors: map<string, int>, lastSeq: map<string, int>) {
    forall conv :: conv in cursors ==> 0 < cursors[conv] <= SeenOf(lastSeq, conv)
  }

  ghost predicate Sequenced(s: System) {
    && (forall conv :: conv in s.lastSeq ==> s.lastSeq[conv] >= 0)
    && (forall x :: x in s.accepted ==> x.conv != "" && 1 <= x.num <= SeenOf(s.lastSeq, x.conv))
    && (forall x, y :: x in s.accepted && y in s.accepted && SameKey(x, y) ==> x == y)
    && Bounded(s.client.cursors, s.lastSeq) && Bounded(s.client.disk, s.lastSeq)
    && (forall a :: a in s.acks ==> Bounded(a, s.lastSeq))
  }

  ghost predicate FromAccepted(s: System) {
    && s.inbox <= s.accepted
    && s.client.persisted <= s.accepted
    && AllIn(s.net, s.accepted)
    && (forall i :: 0 <= i < |s.client.received| ==> AllIn(s.client.received[i], s.accepted))
    && (s.conn.Some? ==> ConnFrom(s.conn.value, s.accepted))
  }

  ghost predicate ConnFrom(c: Conn, accepted: set<Item>) {
    && AllIn(c.gate.buffered, accepted)
    && (forall i :: 0 <= i < |Frames(c)| ==> AllIn(Frames(c)[i], accepted))
    && (c.pos.Some? ==> c.pos.value in accepted)
    && c.snapshot <= accepted
    && |c.queue| <= OUTBOUND_QUEUE && |c.gate.buffered| <= MAX_REPLAY_BUFFER
  }

  /** A batch in progress: its items were accepted and lie below the cursors in memory, and so does
      what it will acknowledge. */
  ghost predicate JobSound(s: System, job: Job) {
    && job.todo <= s.accepted
    && (forall x :: x in job.todo ==> x.num <= Cursor(s, x.conv))
    && Bounded(job.watermark, s.lastSeq) && Within(job.watermark, s.client.cursors)
  }

  ghost predicate Acknowledged(s: System, x: Item) {
    exists a :: a in s.acks && Covers(a, x)
  }

  /** Rows go away only by an acknowledgement the client sent, and cursors on disk or in a replay never
      run ahead of those in memory. */
  ghost predicate AckedByClient(s: System) {
    && (forall x :: x in s.accepted && x !in s.inbox ==> Acknowledged(s, x))
    && (forall j :: 0 <= j < |s.client.jobs| ==> JobSound(s, s.client.jobs[j]))
    && Within(s.client.disk, s.client.cursors)
    && (s.conn.Some? ==> Within(s.conn.value.after, s.client.cursors))
  }

  ghost predicate Inv(s: System) {
    Sequenced(s) && FromAccepted(s) && AckedByClient(s)
  }

  lemma {:induction false} UnseenFrom(after: map<string, int>, rows: seq<Item>)
    ensures forall x :: x in Unseen(after, rows) <==> x in rows && x.num > SeenOf(after, x.conv)
  {
    if rows != [] {
      UnseenFrom(after, rows[..|rows| - 1]);
      assert rows == rows[..|rows| - 1] + [rows[|rows| - 1]];
    }
  }

  lemma FlushedFrom(g: GateState)
    ensures forall x :: x in Flushed(g) ==> x in g.buffered
  {
    FlushedMeans(g);
    forall x | x in Flushed(g) ensures x in g.buffered {
      assert FirstOfKey(g.buffered, x);
      FirstIsMember(g.buffered, x);
    }
  }

  lemma SendKeepsInv(s: System, st: Step)
    requires Inv(s) && Enabled(s, st) && st.Send?
    ensures Inv(Taken(s, st))
  {
    var s' := Taken(s, st);
    SendKeepsNumbers(s, s', NextItem(s, st));
    forall j | 0 <= j < |s'.client.jobs| ensures JobSound(s', s'.client.jobs[j]) {
      assert JobSound(s, s.client.jobs[j]);
      BoundedStays(s.client.jobs[j].watermark, s.lastSeq, s'.lastSeq);
    }
    forall x | x in s'.accepted && x !in s'.inbox ensures Acknowledged(s', x) { assert Acknowledged(s, x); }
  }

  lemma BoundedStays(m: map<string, int>, a: map<string, int>, b: map<string, int>)
    requires Bounded(m, a) && forall conv :: SeenOf(a, conv) <= SeenOf(b, conv)
    ensures Bounded(m, b)
  {
  }

  /** The next number of a conversation is new. */
  lemma SendKeepsNumbers(s: System, s': System, z: Item)
    requires Sequenced(s) && z.conv != "" && z.num == SeenOf(s.lastSeq, z.conv) + 1
    requires s'.lastSeq == s.lastSeq[z.conv := z.num] && s.accepted <= s'.accepted <= s.accepted + {z}
    requires s'.client == s.client && s'.acks == s.acks
    ensures Sequenced(s') && forall conv :: SeenOf(s.lastSeq, conv) <= SeenOf(s'.lastSeq, conv)
  {
    assert forall conv :: SeenOf(s.lastSeq, conv) <= SeenOf(s'.lastSeq, conv);
    BoundedStays(s.client.cursors, s.lastSeq, s'.lastSeq);
    BoundedStays(s.client.disk, s.lastSeq, s'.lastSeq);
    forall a | a in s'.acks ensures Bounded(a, s'.lastSeq) { BoundedStays(a, s.lastSeq, s'.lastSeq); }
  }

  /** Steps that leave rows, acks and the client alone keep what is said about them. */
  lemma SameClient(s: System, s': System)
    requires Inv(s) && s'.lastSeq == s.lastSeq && s'.accepted == s.accepted && s'.inbox == s.inbox
    requires s'.client == s.client && s'.acks == s.acks
    requires AllIn(s'.net, s.accepted)
    requires s'.conn.Some? ==> ConnFrom(s'.conn.value, s.accepted) && Within(s'.conn.value.after, s.client.cursors)
    ensures Inv(s')
  {
    forall j | 0 <= j < |s'.client.jobs| ensures JobSound(s', s'.client.jobs[j]) {
      assert JobSound(s, s.client.jobs[j]);
    }
    forall x | x in s'.accepted && x !in s'.inbox ensures Acknowledged(s', x) { assert Acknowledged(s, x); }
  }

  lemma QueueKeepsInv(s: System, st: Step)
    requires Inv(s) && Enabled(s, st) && (st.Arrive? || st.Drop? || st.Emit?)
    ensures Inv(Taken(s, st))
  {
    var s' := Taken(s, st);
    assert AllIn(s'.net, s.accepted);
    if s.conn.Some? && s'.conn.Some? {
      var c, c' := s.conn.value, s'.conn.value;
      assert Frames(c)[|c.queue|] == c.page;
      forall i | 0 <= i < |Frames(c')| ensures AllIn(Frames(c')[i], s.accepted) {
        if i < |c.queue| { assert Frames(c')[i] == Frames(c)[i]; }
      }
    }
    SameClient(s, s');
  }

  lemma ReplayKeepsInv(s: System, st: Step)
    requires Inv(s) && Enabled(s, st) && (st.Connect? || st.Fetch? || st.Finish? || st.Disconnect?)
    ensures Inv(Taken(s, st))
  {
    var s' := Taken(s, st);
    match st {
    case Connect(_, _, _) =>
    case Disconnect =>
    case Fetch(rows) =>
      var c, c' := s.conn.value, s'.conn.value;
      UnseenFrom(c.after, rows);
      forall i | 0 <= i < |Frames(c')| ensures AllIn(Frames(c')[i], s.accepted) {
        if i < |c.queue| { assert Frames(c')[i] == Frames(c)[i]; }
      }
    case Finish(_) =>
      if s'.conn.Some? {
        var c, c' := s.conn.value, s'.conn.value;
        FlushedFrom(c.gate);
        forall i | 0 <= i < |Frames(c')| ensures AllIn(Frames(c')[i], s.accepted) {
          if i < |c.queue| { assert Frames(c')[i] == Frames(c)[i]; }
        }
      }
    }
    SameClient(s, s');
  }

  lemma PlannedCursors(s: System, frame: seq<Item>)
    requires Sequenced(s) && AllIn(frame, s.accepted)
    ensures
      var cursors := Planned(s.client, frame).cursors;
      && (forall conv :: Cursor(s, conv) <= SeenOf(cursors, conv) <= SeenOf(s.lastSeq, conv))
      && Bounded(cursors, s.lastSeq) && Bounded(Watermark(cursors, frame), s.lastSeq)
      && (forall x :: x in frame ==> x.num <= SeenOf(cursors, x.conv))
  {
    var cursors := Planned(s.client, frame).cursors;
    forall conv: string
      ensures Cursor(s, conv) <= SeenOf(cursors, conv) <= SeenOf(s.lastSeq, conv)
      ensures conv in cursors ==> cursors[conv] > 0
    {
      AdvancedCovers(s.client.cursors, frame, conv);
      AdvancedKeys(s.client.cursors, frame, conv);
    }
    forall x | x in frame ensures 1 <= x.num <= SeenOf(cursors, x.conv) {
      AdvancedCovers(s.client.cursors, frame, x.conv);
    }
  }

  lemma PumpKeepsInv(s: System, st: Step)
    requires Inv(s) && Enabled(s, st) && st.Pump?
    ensures Inv(Taken(s, st))
  {
    var s' := Taken(s, st);
    if st.written {
      var c, c' := s.conn.value, s'.conn.value;
      forall i | 0 <= i < |Frames(c')| ensures AllIn(Frames(c')[i], s.accepted) {
        assert Frames(c')[i] == Frames(c)[i + 1];
      }
      assert Frames(c)[0] == c.queue[0];
      SameRecords(s, s');
    } else {
      SameClient(s, s');
    }
  }

  /** Steps that only hand frames over keep what is said about rows and the client's records. */
  lemma SameRecords(s: System, s': System)
    requires Inv(s) && s'.lastSeq == s.lastSeq && s'.accepted == s.accepted && s'.inbox == s.inbox
    requires s'.net == s.net && s'.acks == s.acks && s'.client.(received := s.client.received) == s.client
    requires forall i :: 0 <= i < |s'.client.received| ==> AllIn(s'.client.received[i], s.accepted)
    requires s'.conn.Some? ==> ConnFrom(s'.conn.value, s.accepted) && Within(s'.conn.value.after, s.client.cursors)
    ensures Inv(s')
  {
    forall j | 0 <= j < |s'.client.jobs| ensures JobSound(s', s'.client.jobs[j]) {
      assert JobSound(s, s.client.jobs[j]);
    }
    forall x | x in s'.accepted && x !in s'.inbox ensures Acknowledged(s', x) { assert Acknowledged(s, x); }
  }

  lemma PlanKeepsInv(s: System, st: Step)
    requires Inv(s) && Enabled(s, st) && st.Plan?
    ensures Inv(Taken(s, st))
  {
    var s' := Taken(s, st);
    PlanKeepsClient(s, st.at);
    forall x | x in s'.accepted && x !in s'.inbox ensures Acknowledged(s', x) { assert Acknowledged(s, x); }
  }

  lemma PlanKeepsClient(s: System, at: nat)
    requires Inv(s) && at < |s.client.received|
    ensures
      var s' := s.(client := PlannedAt(s.client, at));
      && Sequenced(s') && Within(s'.client.disk, s'.client.cursors)
      && (s'.conn.Some? ==> Within(s'.conn.value.after, s'.client.cursors))
      && forall j :: 0 <= j < |s'.client.jobs| ==> JobSound(s', s'.client.jobs[j])
  {
    var s', frame := s.(client := PlannedAt(s.client, at)), s.client.received[at];
    assert AllIn(frame, s.accepted);
    PlannedCursors(s, frame);
    forall j | 0 <= j < |s'.client.jobs| ensures JobSound(s', s'.client.jobs[j]) {
      if j < |s.client.jobs| { assert JobSound(s, s.client.jobs[j]); }
    }
  }

  lemma NotedBounded(s: System, job: nat, noted: set<string>)
    requires Inv(s) && job < |s.client.jobs|
    ensures
      var disk := Ended(s.client, job, noted).disk;
      Bounded(disk, s.lastSeq) && Within(disk, s.client.cursors)
  {
    assert JobSound(s, s.client.jobs[job]);
  }

  lemma StoreKeepsInv(s: System, st: Step)
    requires Inv(s) && Enabled(s, st) && (st.Save? || st.Complete? || st.Abandon?)
    ensures Inv(Taken(s, st))
  {
    var s' := Taken(s, st);
    assert JobSound(s, s.client.jobs[st.job]);
    if !st.Save? { NotedBounded(s, st.job, if st.Complete? then s.client.jobs[st.job].watermark.Keys else st.noted); }
    forall j | 0 <= j < |s'.client.jobs| ensures JobSound(s', s'.client.jobs[j]) {
      assert JobSound(s, s.client.jobs[if st.Save? || j < st.job then j else j + 1]);
    }
    forall x | x in s'.accepted && x !in s'.inbox ensures Acknowledged(s', x) { assert Acknowledged(s, x); }
  }

  lemma AckKeepsInv(s: System, st: Step)
    requires Inv(s) && Enabled(s, st) && (st.Ack? || st.Restart?)
    ensures Inv(Taken(s, st))
  {
    var s' := Taken(s, st);
    forall x | x in s'.accepted && x !in s'.inbox ensures Acknowledged(s', x) {
      if x in s.inbox { assert st.upTo in s'.acks && Covers(st.upTo, x); } else { assert Acknowledged(s, x); }
    }
    forall j | 0 <= j < |s'.client.jobs| ensures JobSound(s', s'.client.jobs[j]) {
      assert JobSound(s, s.client.jobs[j]);
    }
  }

  lemma StepKeepsInv(s: System, st: Step)
    requires Inv(s) && Enabled(s, st)
    ensures Inv(Taken(s, st))
  {
    match st
    case Send(_, _, _, _, _) => SendKeepsInv(s, st);
    case Arrive(_, _, _) => QueueKeepsInv(s, st);
    case Drop(_) => QueueKeepsInv(s, st);
    case Emit(_) => QueueKeepsInv(s, st);
    case Connect(_, _, _) => ReplayKeepsInv(s, st);
    case Fetch(_) => ReplayKeepsInv(s, st);
    case Finish(_) => ReplayKeepsInv(s, st);
    case Disconnect => ReplayKeepsInv(s, st);
    case Pump(_) => PumpKeepsInv(s, st);
    case Plan(_) => PlanKeepsInv(s, st);
    case Save(_, _) => StoreKeepsInv(s, st);
    case Complete(_) => StoreKeepsInv(s, st);
    case Abandon(_, _) => StoreKeepsInv(s, st);
    case Restart => AckKeepsInv(s, st);
    case Ack(_) => AckKeepsInv(s, st);
  }

  lemma {:induction false} RunKeepsInv(s: System, steps: seq<Step>)
    requires Inv(s) && Legal(s, steps)
    ensures Inv(Run(s, steps))
    decreases |steps|
  {
    if steps != [] {
      StepKeepsInv(s, steps[0]);
      RunKeepsInv(Taken(s, steps[0]), steps[1..]);
    }
  }

  lemma InitialInv()
    ensures Inv(INITIAL)
  {
  }

  /** The bounds, in numbers: on every run at most 512 frames are queued and 1024 live items held, and a page brings
      at most 100 rows. */
  lemma BoundsHold(s: System, steps: seq<Step>, rows: seq<Item>)
    requires Inv(s) && Legal(s, steps)
    ensures
      var t := Run(s, steps);
      && (t.conn.Some? ==> |t.conn.value.queue| <= 512 && |t.conn.value.gate.buffered| <= 1024)
      && (Enabled(t, Fetch(rows)) ==> |rows| <= 100 && (Taken(t, Fetch(rows)).conn.value.drained <==> |rows| < 100))
  {
    RunKeepsInv(s, steps);
  }

  /** A batch written whole survives a restart: its items are stored and the cursors resume at its watermark. */
  lemma CompletedSurvivesRestart(s: System, job: nat, conv: string)
    requires Enabled(s, Complete(job)) && conv in s.client.jobs[job].watermark
    ensures
      var w, t := s.client.jobs[job].watermark, Taken(Taken(s, Complete(job)), Restart);
      && Cursor(t, conv) == w[conv] && t.client.persisted == s.client.persisted && w in t.acks
      && t.client.jobs == [] && t.client.received == [] && t.conn == None
  {
  }

  /** Whose cursors a connection honours: those of a hello that presents the token on record, nobody else's; and it
      mints a new token, which only then becomes the one on record if the store took it. */
  lemma ResumeHonoursCurrentToken(s: System, presented: nat, hello: map<string, int>, rotated: bool)
    requires Enabled(s, Connect(presented, hello, rotated))
    ensures
      var t := Taken(s, Connect(presented, hello, rotated));
      && t.conn.Some? && t.conn.value.after == (if s.current == Some(presented) then hello else map[])
      && t.conn.value.snapshot == s.accepted && !t.conn.value.gate.open
      && t.current == (if rotated then Some(s.minted) else s.current) && t.minted > s.minted
  {
  }
}
