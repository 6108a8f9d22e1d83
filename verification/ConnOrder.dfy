/** What a connection sends, as theorems of the delivery system: in which order, the replay scan's own pages
    meeting what the gate's interleaving asks of its batches, and that the replay is complete. */
module ConnOrder {
  import opened Ports
  import opened Items
  import opened ReplayGate
  import opened Client
  import opened Delivery

  function FeedOf(c: Conn): Feed {
    Feed(c.gate, c.sent, false)
  }

  /** While the gate is closed, what was sent and the page at hand ascend, up to the scan position. */
  ghost predicate ScanOrder(c: Conn) {
    && (c.gate.open ==> c.page == [])
    && (!c.gate.open ==> Ascending(c.sent + c.page) && forall x :: x in c.sent + c.page ==> Reached(c.pos, x))
  }

  ghost predicate Reached(pos: Option<Item>, x: Item) {
    pos.Some? && !Less(pos.value, x)
  }

  ghost predicate OrderInv(s: System) {
    s.conn.Some? ==> FeedInv(FeedOf(s.conn.value)) && ScanOrder(s.conn.value)
  }

  /** A live item forwarded by an open gate exceeds what its conversation was sent. */
  ghost predicate LiveExceeds(s: System, st: Step)
    requires Enabled(s, st)
  {
    st.Arrive? && s.conn.Some? && s.conn.value.gate.open ==> Exceeds(s.conn.value.sent, s.net[st.at])
  }

  ghost predicate LiveExceedsAll(s: System, steps: seq<Step>)
    requires Legal(s, steps)
    decreases |steps|
  {
    steps != [] ==> LiveExceeds(s, steps[0]) && LiveExceedsAll(Taken(s, steps[0]), steps[1..])
  }

  lemma ReachedBeforeBeyond(p: Item, x: Item, y: Item)
    requires !Less(p, x) && Less(p, y)
    ensures Less(x, y)
  {
    LessTotal(x, y);
    if Less(y, x) { LessTransitive(p, y, x); }
  }

  lemma {:induction false} UnseenAscends(after: map<string, int>, rows: seq<Item>)
    requires Ascending(rows)
    ensures Ascending(Unseen(after, rows))
    decreases |rows|
  {
    if rows != [] {
      var init, last := rows[..|rows| - 1], rows[|rows| - 1];
      UnseenAscends(after, init);
      UnseenFrom(after, init);
      var r := Unseen(after, init);
      forall i | 0 <= i < |r| ensures Less(r[i], last) {
        assert r[i] in init;
        var j :| 0 <= j < |init| && init[j] == r[i];
        assert rows[j] == r[i];
      }
    }
  }

  lemma FetchKeepsOrder(c: Conn, inbox: set<Item>, rows: seq<Item>)
    requires ScanOrder(c) && !c.gate.open && c.page == [] && NextPage(inbox, c.pos, rows)
    ensures ScanOrder(Fetched(c, rows))
  {
    var c' := Fetched(c, rows);
    UnseenAscends(c.after, rows);
    UnseenFrom(c.after, rows);
    assert c.sent + c.page == c.sent;
    var all := c'.sent + c'.page;
    forall i, j | 0 <= i < j < |all| ensures Less(all[i], all[j]) {
      if i < |c.sent| <= j {
        assert all[i] in c.sent && all[j] in rows;
        ReachedBeforeBeyond(c.pos.value, all[i], all[j]);
      }
    }
    if rows != [] {
      var last := rows[|rows| - 1];
      forall x | x in all ensures !Less(last, x) {
        if x in rows {
          var j :| 0 <= j < |rows| && rows[j] == x;
          LessTotal(x, last);
        } else {
          assert x in c.sent && last in rows;
          ReachedBeforeBeyond(c.pos.value, x, last);
          LessTotal(x, last);
        }
      }
    }
  }

  lemma StepKeepsOrder(s: System, st: Step)
    requires OrderInv(s) && Enabled(s, st) && LiveExceeds(s, st)
    ensures OrderInv(Taken(s, st))
  {
    var s' := Taken(s, st);
    match st {
      case Arrive(at, _, room) =>
        if s.conn.Some? && s'.conn.Some? {
          FedKeepsInv(FeedOf(s.conn.value), Live(s.net[at], room));
        }
      case Fetch(rows) => FetchKeepsOrder(s.conn.value, s.inbox, rows);
      case Emit(room) =>
        var c := s.conn.value;
        if room {
          FedKeepsInv(FeedOf(c), Batch(c.page, true));
          assert (c.sent + c.page) + [] == c.sent + c.page;
        }
      case Finish(room) =>
        if s'.conn.Some? { FedKeepsInv(FeedOf(s.conn.value), Event.Finish(room)); }
      case _ =>
    }
  }

  /** On every legal run, every connection sends each conversation in strictly increasing order, so no
      (conversation, seq) twice: without condition up to and including the flush, and after it as long as
      live items exceed what was sent. */
  lemma {:induction false} ConnectionsSendInOrder(s: System, steps: seq<Step>)
    requires OrderInv(s) && Legal(s, steps) && LiveExceedsAll(s, steps)
    ensures
      var s' := Run(s, steps);
      OrderInv(s') && (s'.conn.Some? ==> ConvAscending(s'.conn.value.sent))
    decreases |steps|
  {
    if steps != [] {
      StepKeepsOrder(s, steps[0]);
      ConnectionsSendInOrder(Taken(s, steps[0]), steps[1..]);
    }
  }

  // ------------------------------------------------------- the replay is complete

  /** `y` was enqueued, is gone from the inbox, or lies at or below the honoured cursor. */
  ghost predicate Accounted(s: System, c: Conn, y: Item) {
    y in c.sent || y !in s.inbox || y.num <= SeenOf(c.after, y.conv)
  }

  /** What was accepted before the connection attached is accounted for, at hand, or ahead of the scan. */
  ghost predicate Replaying(s: System, c: Conn) {
    && (c.gate.open ==> c.page == [] && c.drained)
    && forall y :: y in c.snapshot ==> Accounted(s, c, y) || y in c.page || (!c.drained && Beyond(c.pos, y))
  }

  ghost predicate ReplayInv(s: System) {
    s.conn.Some? ==> Replaying(s, s.conn.value)
  }

  lemma FetchKeepsReplay(s: System, s': System, c: Conn, rows: seq<Item>)
    requires Replaying(s, c) && !c.gate.open && c.page == [] && !c.drained && NextPage(s.inbox, c.pos, rows)
    requires s'.inbox == s.inbox
    ensures Replaying(s', Fetched(c, rows))
  {
    UnseenFrom(c.after, rows);
  }

  lemma StepKeepsReplay(s: System, st: Step)
    requires Inv(s) && ReplayInv(s) && Enabled(s, st)
    ensures ReplayInv(Taken(s, st))
  {
    var s' := Taken(s, st);
    match st {
      case Send(_, _, _, _, _) => assert forall y :: y in s.accepted ==> (y in s'.inbox <==> y in s.inbox);
      case Fetch(rows) => FetchKeepsReplay(s, s', s.conn.value, rows);
      case _ =>
    }
  }

  /** On every legal run, whatever the feed and the client do: once the gate is open, every row accepted
      before the connection attached has been sent on it, is no longer in the inbox, or was already covered
      by the cursors it resumed with. */
  lemma {:induction false} ReplayIsComplete(s: System, steps: seq<Step>)
    requires Inv(s) && ReplayInv(s) && Legal(s, steps)
    ensures
      var s' := Run(s, steps);
      && ReplayInv(s')
      && (s'.conn.Some? && s'.conn.value.gate.open ==>
            forall y :: y in s'.conn.value.snapshot ==> Accounted(s', s'.conn.value, y))
    decreases |steps|
  {
    if steps != [] {
      StepKeepsInv(s, steps[0]);
      StepKeepsReplay(s, steps[0]);
      ReplayIsComplete(Taken(s, steps[0]), steps[1..]);
    }
  }

  // ------------------------------------------- what is queued, and when it ends

  function Concat(frames: seq<seq<Item>>): seq<Item> {
    if frames == [] then [] else frames[0] + Concat(frames[1..])
  }

  lemma {:induction false} ConcatSnoc(frames: seq<seq<Item>>, frame: seq<Item>)
    ensures Concat(frames + [frame]) == Concat(frames) + frame
  {
    if frames != [] {
      ConcatSnoc(frames[1..], frame);
      assert (frames + [frame])[1..] == frames[1..] + [frame];
    }
  }

  /** The queue holds the end of what was sent, in order; what came before it has been written. */
  ghost predicate QueuedLast(c: Conn) {
    exists written :: c.sent == written + Concat(c.queue)
  }

  ghost predicate QueueInv(s: System) {
    s.conn.Some? ==> QueuedLast(s.conn.value)
  }

  lemma EnqueuedKeepsTail(c: Conn, c': Conn, frame: seq<Item>)
    requires QueuedLast(c) && c'.sent == c.sent + frame
    requires c'.queue == c.queue + [frame] || (frame == [] && c'.queue == c.queue)
    ensures QueuedLast(c')
  {
    var written :| c.sent == written + Concat(c.queue);
    ConcatSnoc(c.queue, frame);
    assert c'.sent == written + Concat(c'.queue);
  }

  lemma StepKeepsQueue(s: System, st: Step)
    requires QueueInv(s) && Enabled(s, st)
    ensures QueueInv(Taken(s, st))
  {
    var s' := Taken(s, st);
    if s'.conn.Some? {
      var c' := s'.conn.value;
      match st {
        case Connect(_, _, _) => assert c'.sent == [] + Concat(c'.queue);
        case Arrive(at, _, _) =>
          if s.conn.value.gate.open { EnqueuedKeepsTail(s.conn.value, c', [s.net[at]]); }
        case Emit(_) => EnqueuedKeepsTail(s.conn.value, c', s.conn.value.page);
        case Finish(_) => EnqueuedKeepsTail(s.conn.value, c', Flushed(s.conn.value.gate));
        case Pump(_) =>
          var c := s.conn.value;
          var written :| c.sent == written + Concat(c.queue);
          assert c'.sent == (written + c.queue[0]) + Concat(c'.queue);
        case _ =>
      }
    }
  }

  /** On every legal run the queue holds the end of what the connection sent: a frame is queued when its items
      are counted as sent, frames leave in the order they came, and none is dropped while it lasts. */
  lemma {:induction false} QueueIsTheTail(s: System, steps: seq<Step>)
    requires QueueInv(s) && Legal(s, steps)
    ensures QueueInv(Run(s, steps))
    decreases |steps|
  {
    if steps != [] {
      StepKeepsQueue(s, steps[0]);
      QueueIsTheTail(Taken(s, steps[0]), steps[1..]);
    }
  }

  /** What ends a connection: a refused frame, a live item beyond the 1024 held, a failed write, a restart or
      the peer. A finish with no held item above the watermark enqueues nothing and needs no room. */
  lemma ConnectionEndsExactly(s: System, st: Step)
    requires s.conn.Some? && Enabled(s, st)
    ensures
      var g := s.conn.value.gate;
      Taken(s, st).conn.None? <==> match st
        case Arrive(_, _, room) => if g.open then !room else |g.buffered| >= 1024
        case Emit(room) => !room
        case Finish(room) => !room && exists x :: x in g.buffered && x.num > SeenOf(g.seen, x.conv)
        case Pump(written) => !written
        case Restart => true
        case Disconnect => true
        case _ => false
  {
    if st.Finish? { ClosesExactly(FeedOf(s.conn.value), Event.Finish(st.room)); }
  }
}
