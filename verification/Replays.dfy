/** A replay that runs on: page after page reaches the client until a given row is among them. */
module Replays {
  import opened Ports
  import opened Items
  import opened ReplayGate
  import opened Client
  import opened Delivery
  import opened Runs

  lemma {:induction false} Lowest(rows: set<Item>) returns (m: Item)
    requires rows != {} && forall x, y :: x in rows && y in rows && SameKey(x, y) ==> x == y
    ensures m in rows && forall x :: x in rows && x != m ==> Less(m, x)
    decreases |rows|
  {
    m :| m in rows;
    var rest := rows - {m};
    if rest != {} {
      var k := Lowest(rest);
      LessTotal(m, k);
      if Less(k, m) {
        m := k;
      } else {
        forall x | x in rest && x != k ensures Less(m, x) {
          LessTotal(k, x);
          LessTransitive(m, k, x);
        }
      }
    }
  }

  /** The `n` lowest of `rows`, in order. */
  lemma {:induction false} LowestRows(rows: set<Item>, n: nat) returns (page: seq<Item>)
    requires forall x, y :: x in rows && y in rows && SameKey(x, y) ==> x == y
    ensures |page| <= n && Ascending(page) && forall x :: x in page ==> x in rows
    ensures forall x :: x in rows && x !in page ==> |page| == n && (n > 0 ==> Less(page[n - 1], x))
    decreases n
  {
    if n == 0 || rows == {} { return []; }
    var m := Lowest(rows);
    var rest := LowestRows(rows - {m}, n - 1);
    page := [m] + rest;
    forall j | 0 <= j < |rest| ensures Less(m, rest[j]) { assert rest[j] in rows - {m}; }
    forall x | x in rows && x !in page ensures |page| == n && Less(page[n - 1], x) {
      assert x != m && x !in rest;
    }
  }

  ghost function Ahead(s: System): set<Item>
    requires s.conn.Some?
  {
    set x | x in s.inbox && Beyond(s.conn.value.pos, x)
  }

  lemma PageExists(s: System) returns (rows: seq<Item>)
    requires Inv(s) && s.conn.Some?
    ensures NextPage(s.inbox, s.conn.value.pos, rows)
  {
    rows := LowestRows(Ahead(s), REPLAY_BATCH);
  }

  /** A replay between two pages, nothing queued. */
  ghost predicate BetweenPages(s: System) {
    && s.conn.Some? && !s.conn.value.gate.open && !s.conn.value.drained
    && s.conn.value.page == [] && s.conn.value.queue == []
  }

  /** Only the connection, and the frames the client has received, have moved on. */
  ghost predicate OnlyReceived(s: System, s': System, more: seq<seq<Item>>) {
    s'.(conn := s.conn, client := s.client) == s && s'.client == s.client.(received := s.client.received + more)
  }

  /** The scan stands after `rows`, with nothing queued. */
  ghost predicate ScannedTo(c: Conn, rows: seq<Item>, c': Conn)
    requires rows != []
  {
    && !c'.gate.open && c'.after == c.after && c'.page == [] && c'.queue == []
    && c'.pos == Some(rows[|rows| - 1]) && c'.drained == (|rows| < REPLAY_BATCH)
  }

  function Shown(page: seq<Item>): seq<seq<Item>> {
    if page == [] then [] else [page]
  }

  lemma AfterFetch(s: System, rows: seq<Item>)
    requires BetweenPages(s) && NextPage(s.inbox, s.conn.value.pos, rows) && rows != []
    ensures Enabled(s, Fetch(rows)) && OnlyReceived(s, Taken(s, Fetch(rows)), [])
    ensures
      var c := Taken(s, Fetch(rows)).conn.value;
      && c == Fetched(s.conn.value, rows) && c.queue == [] && !c.gate.open
  {
    assert s.client.received + [] == s.client.received;
  }

  lemma AfterEmit(s: System, page: seq<Item>)
    requires s.conn.Some? && s.conn.value.page == page != [] && s.conn.value.queue == []
    ensures Enabled(s, Emit(true)) && OnlyReceived(s, Taken(s, Emit(true)), [])
    ensures
      var o, c := Taken(s, Emit(true)).conn, s.conn.value;
      && o.Some? && o.value.queue == [page] && o.value.page == [] && o.value.pos == c.pos && o.value.drained == c.drained
      && o.value.after == c.after && o.value.gate.open == c.gate.open
  {
    assert s.client.received + [] == s.client.received;
    assert s.conn.value.queue + [page] == [page];
  }

  lemma AfterPump(s: System, page: seq<Item>)
    requires s.conn.Some? && s.conn.value.queue == [page]
    ensures Enabled(s, Pump(true)) && OnlyReceived(s, Taken(s, Pump(true)), [page])
    ensures Taken(s, Pump(true)).conn == Some(s.conn.value.(queue := []))
  {
    assert [page][1..] == [];
  }

  lemma OnlyReceivedTwice(s: System, t: System, u: System, a: seq<seq<Item>>, b: seq<seq<Item>>)
    requires OnlyReceived(s, t, a) && OnlyReceived(t, u, b)
    ensures OnlyReceived(s, u, a + b)
  {
    assert (s.client.received + a) + b == s.client.received + (a + b);
  }

  /** One page goes all the way to the client. */
  lemma TakePage(s: System, rows: seq<Item>) returns (steps: seq<Step>)
    requires BetweenPages(s) && NextPage(s.inbox, s.conn.value.pos, rows) && rows != []
    ensures Legal(s, steps) && AllSmooth(steps)
    ensures OnlyReceived(s, Run(s, steps), Shown(Unseen(s.conn.value.after, rows)))
    ensures Run(s, steps).conn.Some? && ScannedTo(s.conn.value, rows, Run(s, steps).conn.value)
  {
    var page := Unseen(s.conn.value.after, rows);
    AfterFetch(s, rows);
    var s1 := Taken(s, Fetch(rows));
    if page == [] {
      steps := [Fetch(rows)];
      RunOne(s, Fetch(rows));
    } else {
      AfterEmit(s1, page);
      var s2 := Taken(s1, Emit(true));
      AfterPump(s2, page);
      steps := [Fetch(rows), Emit(true), Pump(true)];
      RunThree(s, s1, s2, Fetch(rows), Emit(true), Pump(true));
      OnlyReceivedTwice(s, s1, s2, [], []);
      OnlyReceivedTwice(s, s2, Taken(s2, Pump(true)), [] + [], [page]);
      assert ([] + []) + [page] == [page];
    }
  }

  lemma AheadShrinks(s: System, s': System, rows: seq<Item>, y: Item)
    requires Inv(s) && s.conn.Some? && NextPage(s.inbox, s.conn.value.pos, rows) && rows != []
    requires s'.inbox == s.inbox && s'.conn.Some? && s'.conn.value.pos == Some(rows[|rows| - 1])
    requires y in Ahead(s) && y !in rows
    ensures |Ahead(s')| < |Ahead(s)| && y in Ahead(s') && |rows| == REPLAY_BATCH
  {
    var last := rows[|rows| - 1];
    assert last in rows && last in Ahead(s);
    forall x | x in Ahead(s') ensures x in Ahead(s) {
      LessTotal(last, x);
      if s.conn.value.pos.Some? { LessTransitive(s.conn.value.pos.value, last, x); }
    }
    LessTotal(last, last);
    assert last !in Ahead(s') && Ahead(s') <= Ahead(s) - {last};
    SubsetSize(Ahead(s'), Ahead(s) - {last});
  }

  lemma SubsetSize(a: set<Item>, b: set<Item>)
    requires a <= b
    ensures |a| <= |b|
  {
    assert b == a + (b - a);
  }

  /** Frames from a replay hold only rows beyond the honoured cursors. */
  ghost predicate Beyonds(after: map<string, int>, frames: seq<seq<Item>>) {
    forall i, y :: 0 <= i < |frames| && y in frames[i] ==> y.num > SeenOf(after, y.conv)
  }

  /** Pages go to the client until one has the row `x`. */
  lemma {:induction false} DeliverUntil(s: System, x: Item) returns (steps: seq<Step>, more: seq<seq<Item>>)
    requires Inv(s) && BetweenPages(s) && x in Ahead(s) && x.num > SeenOf(s.conn.value.after, x.conv)
    ensures Legal(s, steps) && AllSmooth(steps) && OnlyReceived(s, Run(s, steps), more)
    ensures more != [] && x in more[|more| - 1] && Beyonds(s.conn.value.after, more)
    decreases |Ahead(s)|
  {
    var rows := PageExists(s);
    var after := s.conn.value.after;
    UnseenFrom(after, rows);
    var first := TakePage(s, rows);
    var s1 := Run(s, first);
    var shown := Shown(Unseen(after, rows));
    if x in rows {
      steps, more := first, shown;
    } else {
      RunKeepsInv(s, first);
      AheadShrinks(s, s1, rows, x);
      var rest, others := DeliverUntil(s1, x);
      steps, more := first + rest, shown + others;
      RunAppend(s, first, rest);
      OnlyReceivedTwice(s, s1, Run(s1, rest), shown, others);
    }
  }
}
