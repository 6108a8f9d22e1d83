/** Runs that lose a message: what a gap in the feed, a frame planned ahead of its turn, an acknowledgement
    out of turn and a failed local write each lead to. */
module Losing {
  import opened Ports
  import opened Items
  import opened ReplayGate
  import opened Client
  import opened Delivery
  import opened ZeroLoss
  import opened Runs
  import opened Replays

  // ------------------------------------------------- storing what is in progress

  /** Only the local store and the acknowledgements differ; cursors in memory and frames are the same. */
  ghost predicate OnlyStored(s: System, s': System) {
    && s'.(client := s.client, acks := s.acks) == s && s.acks <= s'.acks
    && s'.client.cursors == s.client.cursors && s'.client.received == s.client.received
  }

  /** The oldest batch in progress is written whole and acknowledged. */
  lemma {:induction false} FinishFirst(s: System) returns (steps: seq<Step>)
    requires s.client.jobs != []
    ensures Legal(s, steps) && AllSmooth(steps) && OnlyStored(s, Run(s, steps))
    ensures
      var s', job := Run(s, steps), s.client.jobs[0];
      && s'.client.jobs == s.client.jobs[1..] && job.watermark in s'.acks
      && s'.client.persisted == s.client.persisted + job.todo
    decreases |s.client.jobs[0].todo|
  {
    var job := s.client.jobs[0];
    if job.todo == {} {
      steps := [Complete(0)];
      RunOne(s, Complete(0));
      assert Removed(s.client.jobs, 0) == s.client.jobs[1..];
    } else {
      var x :| x in job.todo;
      var st := Save(0, x);
      var s1 := Taken(s, st);
      SavedFirst(s, x);
      RunOne(s, st);
      var rest := FinishFirst(s1);
      steps := [st] + rest;
      RunAppend(s, [st], rest);
    }
  }

  lemma SavedFirst(s: System, x: Item)
    requires s.client.jobs != [] && x in s.client.jobs[0].todo
    ensures
      var s', job := Taken(s, Save(0, x)), s.client.jobs[0];
      && Enabled(s, Save(0, x)) && OnlyStored(s, s') && s'.client.jobs == [job.(todo := job.todo - {x})] + s.client.jobs[1..]
      && s'.client.jobs != [] && s'.client.jobs[1..] == s.client.jobs[1..]
      && s'.client.persisted + (job.todo - {x}) == s.client.persisted + job.todo
  {
    var s' := Taken(s, Save(0, x));
    assert s'.client.jobs[1..] == s.client.jobs[1..];
  }

  /** All batches in progress, oldest first. */
  lemma {:induction false} FinishAll(s: System) returns (steps: seq<Step>)
    ensures Legal(s, steps) && AllSmooth(steps) && OnlyStored(s, Run(s, steps)) && Run(s, steps).client.jobs == []
    ensures forall j :: 0 <= j < |s.client.jobs| ==> s.client.jobs[j].watermark in Run(s, steps).acks
    ensures forall y :: y in Run(s, steps).client.persisted ==> Kept(s.client, y)
    decreases |s.client.jobs|
  {
    if s.client.jobs == [] {
      steps := [];
    } else {
      var first := FinishFirst(s);
      var s1 := Run(s, first);
      var rest := FinishAll(s1);
      steps := first + rest;
      RunAppend(s, first, rest);
      var s' := Run(s, steps);
      forall j | 0 <= j < |s.client.jobs| ensures s.client.jobs[j].watermark in s'.acks {
        if j > 0 { assert s1.client.jobs[j - 1] == s.client.jobs[j]; }
      }
      forall y | y in s'.client.persisted ensures Kept(s.client, y) {
        if InJobs(s1.client.jobs, y) {
          var j :| 0 <= j < |s1.client.jobs| && y in s1.client.jobs[j].todo;
          assert y in s.client.jobs[j + 1].todo;
        }
      }
    }
  }

  /** A batch in progress whose watermark covers a row that nothing in progress will store. */
  lemma FinishingLoses(s: System, j: nat, y: Item) returns (steps: seq<Step>)
    requires Inv(s) && j < |s.client.jobs| && y in s.accepted && Covers(s.client.jobs[j].watermark, y)
    requires !Kept(s.client, y)
    ensures Legal(s, steps) && AllSmooth(steps) && LostIn(Run(s, steps), y)
  {
    var w := s.client.jobs[j].watermark;
    var all := FinishAll(s);
    var s1 := Run(s, all);
    RunKeepsInv(s, all);
    MisackedRowIsOneAckAway(s1, w, y);
    RunOne(s1, Ack(w));
    RunAppend(s, all, [Ack(w)]);
    steps := all + [Ack(w)];
  }

  // -------------------------------------------------------------- a gap in the feed

  /** Every queued frame reaches the client. */
  lemma {:induction false} PumpAll(s: System) returns (steps: seq<Step>)
    ensures Legal(s, steps) && AllSmooth(steps)
    ensures
      var s' := Run(s, steps);
      && s'.client == s.client.(received := Pipeline(s)) && s'.accepted == s.accepted && s'.inbox == s.inbox
      && s'.acks == s.acks
    decreases if s.conn.Some? then |s.conn.value.queue| else 0
  {
    if s.conn.None? || s.conn.value.queue == [] {
      steps := [];
      assert Pipeline(s) == s.client.received;
    } else {
      var s1 := Taken(s, Pump(true));
      assert Pipeline(s1) == Pipeline(s);
      RunOne(s, Pump(true));
      var rest := PumpAll(s1);
      RunAppend(s, [Pump(true)], rest);
      steps := [Pump(true)] + rest;
    }
  }

  /** No frame up to the `k`th will make the client store `y`. */
  ghost predicate Passed(s: System, frames: seq<seq<Item>>, k: nat, y: Item) {
    !InFirst(frames, k + 1, y) || (!y.overlay && y.num <= Cursor(s, y.conv))
  }

  /** A message is lost by nothing worse than the frames being planned and stored in turn, and one ack:
      plan up to the gap, then let the acknowledgement of that frame delete the row that was skipped. */
  lemma {:induction false} PlannedGapLoses(s: System, k: nat, x: Item, y: Item) returns (steps: seq<Step>)
    requires Inv(s) && k < |s.client.received| && x in s.client.received[k] && y in s.accepted && y.conv == x.conv
    requires y.num < x.num || y.num <= Cursor(s, y.conv)
    requires !Kept(s.client, y) && Passed(s, s.client.received, k, y)
    ensures Legal(s, steps) && AllSmooth(steps) && LostIn(Run(s, steps), y)
    decreases k
  {
    var st := Plan(0);
    var s1 := Taken(s, st);
    StepKeepsInv(s, st);
    RunOne(s, st);
    var rest;
    if k == 0 {
      if y in s.client.received[0] { assert InFirst(s.client.received, 1, y); }
      PlanPasses(s, 0, x, y);
      rest := FinishingLoses(s1, |s.client.jobs|, y);
    } else {
      OtherPasses(s, s1, k, y);
      assert s1.client.received[k - 1] == s.client.received[k];
      rest := PlannedGapLoses(s1, k - 1, x, y);
    }
    RunAppend(s, [st], rest);
    steps := [st] + rest;
  }

  lemma OtherPasses(s: System, s': System, k: nat, y: Item)
    requires Inv(s) && 0 < k < |s.client.received| && !Kept(s.client, y) && Passed(s, s.client.received, k, y)
    requires s'.client == PlannedAt(s.client, 0)
    ensures !Kept(s'.client, y) && Passed(s', s'.client.received, k - 1, y) && Cursor(s, y.conv) <= Cursor(s', y.conv)
  {
    var q, c := s.client.received, s'.client;
    AdvancedCovers(s.client.cursors, q[0], y.conv);
    if y in q[0] { assert InFirst(q, k + 1, y); }
    forall j | 0 <= j < |c.jobs| ensures y !in c.jobs[j].todo {
      assert j < |s.client.jobs| ==> y !in s.client.jobs[j].todo;
    }
    if InFirst(c.received, k, y) {
      var i :| 0 <= i < k && i < |c.received| && y in c.received[i];
      assert y in q[i + 1];
    }
  }

  /** The same from wherever the frames are. */
  lemma GapLosesMessage(s: System, k: nat, x: Item, y: Item) returns (steps: seq<Step>)
    requires Inv(s) && k < |Pipeline(s)| && x in Pipeline(s)[k]
    requires y in s.accepted && Lower(y, x) && !Kept(s.client, y) && Passed(s, Pipeline(s), k, y)
    ensures Legal(s, steps) && AllSmooth(steps) && LostIn(Run(s, steps), y)
  {
    var pumps := PumpAll(s);
    var s1 := Run(s, pumps);
    RunKeepsInv(s, pumps);
    assert InJobs(s1.client.jobs, y) <==> InJobs(s.client.jobs, y);
    var rest := PlannedGapLoses(s1, k, x, y);
    RunAppend(s, pumps, rest);
    steps := pumps + rest;
  }

  /** Any arrival or flush that leaves a gap can be extended to a run that loses a message. */
  lemma GapStepLoses(s: System, st: Step) returns (steps: seq<Step>, y: Item)
    requires Inv(s) && Enabled(s, st) && !Gapless(s, st) && (st.Arrive? || st.Finish?)
    ensures Legal(Taken(s, st), steps) && AllSmooth(steps) && LostIn(Run(Taken(s, st), steps), y)
  {
    var c, s', p := s.conn.value, Taken(s, st), Pipeline(s);
    var f := if st.Arrive? then [s.net[st.at]] else Flushed(c.gate);
    var x;
    x, y := NotFitting(s, p, f);
    StepKeepsInv(s, st);
    AppendedFirst(p, f, y);
    assert Pipeline(s') == p + [f];
    steps := GapLosesMessage(s', |p|, x, y);
  }

  /** So can a frame planned ahead of a lower row: its own acknowledgement deletes that row, and the
      client skips the frame that still has it. */
  lemma EarlyPlanLoses(s: System, at: nat) returns (steps: seq<Step>, y: Item)
    requires Inv(s) && Enabled(s, Plan(at)) && !Gapless(s, Plan(at))
    ensures Legal(Taken(s, Plan(at)), steps) && AllSmooth(steps) && LostIn(Run(Taken(s, Plan(at)), steps), y)
  {
    var x;
    x, y := OutOfLine(s, s.client.received[at]);
    PlanPasses(s, at, x, y);
    StepKeepsInv(s, Plan(at));
    steps := FinishingLoses(Taken(s, Plan(at)), |s.client.jobs|, y);
  }

  /** And so can any acknowledgement out of turn: it arrives, and the app is closed before the other
      batch is written. */
  lemma EarlyAckLoses(s: System, job: nat) returns (steps: seq<Step>, y: Item)
    requires Inv(s) && Enabled(s, Complete(job)) && !Gapless(s, Complete(job))
    ensures Legal(Taken(s, Complete(job)), steps) && LostIn(Run(Taken(s, Complete(job)), steps), y)
    ensures Run(Taken(s, Complete(job)), steps).client.jobs == []
  {
    var w := s.client.jobs[job].watermark;
    y :| InJobs(s.client.jobs, y) && Covers(w, y) && y !in s.client.persisted;
    var j :| 0 <= j < |s.client.jobs| && y in s.client.jobs[j].todo;
    assert JobSound(s, s.client.jobs[j]);
    var s1 := Taken(s, Complete(job));
    StepKeepsInv(s, Complete(job));
    MisackedRowIsOneAckAway(s1, w, y);
    var s2 := Taken(s1, Ack(w));
    RunOne(s1, Ack(w));
    RunOne(s2, Restart);
    RunAppend(s1, [Ack(w)], [Restart]);
    steps := [Ack(w)] + [Restart];
  }

  // ------------------------------------------------------------ a failed local write

  /** The cursor has passed `y` and nobody is storing it. */
  ghost predicate Skipped(s: System, y: Item) {
    y in s.accepted && !y.overlay && !Kept(s.client, y) && y.num <= Cursor(s, y.conv)
  }

  /** A fresh connection that honours the given cursors. */
  lemma Reconnected(s: System, presented: nat, hello: map<string, int>)
    requires Inv(s) && Enabled(s, Connect(presented, hello, true))
    ensures
      var s' := Taken(s, Connect(presented, hello, true));
      && Inv(s') && BetweenPages(s') && s'.client == s.client && s'.inbox == s.inbox && s'.accepted == s.accepted
      && s'.lastSeq == s.lastSeq && s'.current == Some(s.minted) && s'.conn.value.pos == None
      && s'.conn.value.after == (if s.current == Some(presented) then hello else map[])
  {
    StepKeepsInv(s, Connect(presented, hello, true));
  }

  /** A skipped message is lost for want of nothing but a reconnect, whatever state the system is in: when
      the replay brings it again it is taken for a duplicate and acknowledged. */
  lemma SkippedIsLost(s: System, y: Item) returns (steps: seq<Step>)
    requires Inv(s) && Skipped(s, y)
    ensures Legal(s, steps) && AllSmooth(steps) && LostIn(Run(s, steps), y)
  {
    if y !in s.inbox { return []; }
    var st := Connect(0, map[], true);
    Reconnected(s, 0, map[]);
    var s1 := Taken(s, st);
    RunOne(s, st);
    var pages, more := DeliverUntil(s1, y);
    var s2 := Run(s1, pages);
    RunKeepsInv(s1, pages);
    var k := |s.client.received| + |more| - 1;
    assert s2.client.received[k] == more[|more| - 1];
    var rest := PlannedGapLoses(s2, k, y, y);
    RunAppend(s1, pages, rest);
    RunAppend(s, [st], pages + rest);
    steps := [st] + (pages + rest);
  }

  /** A failed write that gives up a message is fatal to it: from there some run on which nothing else
      goes wrong loses the message. */
  lemma AbandonedIsLost(s: System, job: nat, noted: set<string>, y: Item) returns (steps: seq<Step>)
    requires Inv(s) && Enabled(s, Abandon(job, noted)) && y in s.client.jobs[job].todo && !y.overlay
    requires y !in s.client.persisted && !InJobs(Removed(s.client.jobs, job), y)
    ensures Legal(Taken(s, Abandon(job, noted)), steps) && AllSmooth(steps)
    ensures LostIn(Run(Taken(s, Abandon(job, noted)), steps), y)
  {
    assert JobSound(s, s.client.jobs[job]);
    StepKeepsInv(s, Abandon(job, noted));
    steps := SkippedIsLost(Taken(s, Abandon(job, noted)), y);
  }

  /** Neither stored nor in the inbox, and the client has nothing left to store it from. */
  ghost predicate LostToClient(s: System, y: Item) {
    LostIn(s, y) && s.client.jobs == [] && s.client.received == [] && s.conn.None?
  }

  lemma RestartedIsLost(s: System, y: Item) returns (steps: seq<Step>)
    requires LostIn(s, y)
    ensures Legal(s, steps) && LostToClient(Run(s, steps), y)
  {
    steps := [Restart];
    RunOne(s, Restart);
  }

  /** A new row of the conversation, replayed past the cursors; its acknowledgement covers `y`. */
  lemma NewRowLoses(s: System, y: Item) returns (steps: seq<Step>)
    requires Inv(s) && BetweenPages(s) && s.conn.value.pos == None && s.conn.value.after == s.client.cursors
    requires y in s.accepted && !Kept(s.client, y) && y.num <= Cursor(s, y.conv)
    ensures Legal(s, steps) && LostIn(Run(s, steps), y)
  {
    var send := Send(y.conv, "", false, true, false);
    var x, s1 := NextItem(s, send), Taken(s, send);
    RunOne(s, send);
    StepKeepsInv(s, send);
    assert x.num > SeenOf(s.client.cursors, x.conv) && x in Ahead(s1);
    var pages, more := DeliverUntil(s1, x);
    var s2 := Run(s1, pages);
    RunKeepsInv(s1, pages);
    var at := |s.client.received| + |more| - 1;
    assert s2.client.received[at] == more[|more| - 1];
    assert InJobs(s2.client.jobs, y) <==> InJobs(s.client.jobs, y);
    PlanPasses(s2, at, x, y);
    RunOne(s2, Plan(at));
    StepKeepsInv(s2, Plan(at));
    var rest := FinishingLoses(Taken(s2, Plan(at)), |s2.client.jobs|, y);
    RunAppend(s2, [Plan(at)], rest);
    RunAppend(s1, pages, [Plan(at)] + rest);
    RunAppend(s, [send], pages + ([Plan(at)] + rest));
    steps := [send] + (pages + ([Plan(at)] + rest));
  }

  /** Any row the cursor has passed and nobody is storing, overlays too, can be lost: the client resumes
      with its own cursors, so the row is not replayed, and the next message of the conversation is
      acknowledged past it. */
  lemma OvertakenIsLost(s: System, y: Item) returns (steps: seq<Step>)
    requires Inv(s) && y in s.accepted && !Kept(s.client, y) && y.num <= Cursor(s, y.conv)
    ensures Legal(s, steps) && LostToClient(Run(s, steps), y)
  {
    var a := Connect(0, map[], true);
    Reconnected(s, 0, map[]);
    var s1 := Taken(s, a);
    var b := Connect(s.minted, s.client.cursors, true);
    Reconnected(s1, s.minted, s.client.cursors);
    var s2 := Taken(s1, b);
    RunOne(s, a);
    RunOne(s1, b);
    var loses := NewRowLoses(s2, y);
    var stops := RestartedIsLost(Run(s2, loses), y);
    RunAppend(s2, loses, stops);
    RunAppend(s1, [b], loses + stops);
    RunAppend(s, [a], [b] + (loses + stops));
    steps := [a] + ([b] + (loses + stops));
  }

  /** The condition is exact in this sense too: after every step that breaks it, whatever its kind, some
      run leaves a row that is neither in the inbox nor on the device. */
  lemma UngaplessStepLoses(s: System, st: Step) returns (steps: seq<Step>, y: Item)
    requires Inv(s) && Enabled(s, st) && !Gapless(s, st)
    ensures Legal(Taken(s, st), steps) && LostIn(Run(Taken(s, st), steps), y)
  {
    match st
    case Arrive(_, _, _) => steps, y := GapStepLoses(s, st);
    case Finish(_) => steps, y := GapStepLoses(s, st);
    case Plan(at) => steps, y := EarlyPlanLoses(s, at);
    case Complete(job) => steps, y := EarlyAckLoses(s, job);
    case Abandon(job, noted) => steps, y := FailedWriteLoses(s, job, noted);
  }

  lemma FailedWriteLoses(s: System, job: nat, noted: set<string>) returns (steps: seq<Step>, y: Item)
    requires Inv(s) && Enabled(s, Abandon(job, noted)) && !Gapless(s, Abandon(job, noted))
    ensures Legal(Taken(s, Abandon(job, noted)), steps) && LostIn(Run(Taken(s, Abandon(job, noted)), steps), y)
  {
    var s', jobs := Taken(s, Abandon(job, noted)), s.client.jobs;
    StepKeepsInv(s, Abandon(job, noted));
    if !Spared(s.client, job) {
      y :| y in jobs[job].todo && y !in s.client.persisted && !InJobs(Removed(jobs, job), y);
      assert JobSound(s, jobs[job]);
      steps := OvertakenIsLost(s', y);
    } else {
      y :| InJobs(jobs, y) && Covers(Only(jobs[job].watermark, noted), y) && y !in s.client.persisted;
      var j :| 0 <= j < |jobs| && y in jobs[j].todo;
      assert JobSound(s, jobs[j]);
      assert y.num <= SeenOf(s'.client.disk, y.conv);
      var s2 := Taken(s', Restart);
      StepKeepsInv(s', Restart);
      RunOne(s', Restart);
      var rest := OvertakenIsLost(s2, y);
      RunAppend(s', [Restart], rest);
      steps := [Restart] + rest;
    }
  }

  // -------------------------------------------------------------- lost for good

  ghost predicate NoRestart(steps: seq<Step>) {
    forall i :: 0 <= i < |steps| ==> !steps[i].Restart?
  }

  /** A skipped message that is gone from the inbox stays lost while the app runs: even if its payload
      still arrives, the client skips it. */
  lemma {:induction false} LostForGood(s: System, steps: seq<Step>, y: Item)
    requires Inv(s) && Legal(s, steps) && NoRestart(steps) && LostIn(s, y) && Skipped(s, y)
    ensures LostIn(Run(s, steps), y)
    decreases |steps|
  {
    if steps != [] {
      var s' := Taken(s, steps[0]);
      StepKeepsInv(s, steps[0]);
      StaysSkipped(s, steps[0], y);
      assert NoRestart(steps[1..]) by {
        forall i | 0 <= i < |steps| - 1 ensures !steps[1..][i].Restart? { assert steps[1..][i] == steps[i + 1]; }
      }
      LostForGood(s', steps[1..], y);
    }
  }

  lemma StaysSkipped(s: System, st: Step, y: Item)
    requires Inv(s) && Enabled(s, st) && !st.Restart? && LostIn(s, y) && Skipped(s, y)
    ensures LostIn(Taken(s, st), y) && Skipped(Taken(s, st), y)
  {
    var s' := Taken(s, st);
    if st.Send? {
      assert NextItem(s, st).num > SeenOf(s.lastSeq, y.conv) || NextItem(s, st).conv != y.conv;
    } else if st.Plan? {
      AdvancedCovers(s.client.cursors, s.client.received[st.at], y.conv);
      forall j | 0 <= j < |s'.client.jobs| ensures y !in s'.client.jobs[j].todo {
        assert j < |s.client.jobs| ==> y !in s.client.jobs[j].todo;
      }
    } else if st.Save? {
      forall j | 0 <= j < |s'.client.jobs| ensures y !in s'.client.jobs[j].todo {
        assert y !in s.client.jobs[j].todo;
      }
    } else if st.Complete? || st.Abandon? {
      RemovedJobs(s.client.jobs, st.job, y);
    }
  }

  /** `y` is nowhere in the system. */
  ghost predicate Gone(s: System, y: Item) {
    && LostIn(s, y) && !InJobs(s.client.jobs, y) && y !in s.net
    && (forall i :: 0 <= i < |s.client.received| ==> y !in s.client.received[i])
    && (s.conn.Some? ==>
          && y !in s.conn.value.gate.buffered
          && forall i :: 0 <= i < |Frames(s.conn.value)| ==> y !in Frames(s.conn.value)[i])
  }

  /** Once no copy is left in transit, not even a restart brings it back. */
  lemma {:induction false} GoneForGood(s: System, steps: seq<Step>, y: Item)
    requires Inv(s) && Legal(s, steps) && Gone(s, y)
    ensures Gone(Run(s, steps), y)
    decreases |steps|
  {
    if steps != [] {
      var st := steps[0];
      StepKeepsInv(s, st);
      if st.Save? || st.Complete? || st.Abandon? || st.Plan? {
        ClientStaysGone(s, st, y);
      } else {
        FeedStaysGone(s, st, y);
      }
      GoneForGood(Taken(s, st), steps[1..], y);
    }
  }

  lemma ClientStaysGone(s: System, st: Step, y: Item)
    requires Inv(s) && Enabled(s, st) && Gone(s, y) && (st.Save? || st.Complete? || st.Abandon? || st.Plan?)
    ensures Gone(Taken(s, st), y)
  {
    var s' := Taken(s, st);
    if st.Complete? || st.Abandon? {
      RemovedJobs(s.client.jobs, st.job, y);
    } else {
      forall j | 0 <= j < |s'.client.jobs| ensures y !in s'.client.jobs[j].todo {
        assert j < |s.client.jobs| ==> y !in s.client.jobs[j].todo;
      }
    }
  }

  lemma FeedStaysGone(s: System, st: Step, y: Item)
    requires Inv(s) && Enabled(s, st) && Gone(s, y) && !(st.Save? || st.Complete? || st.Abandon? || st.Plan?)
    ensures Gone(Taken(s, st), y)
  {
    var s' := Taken(s, st);
    if s.conn.Some? && s'.conn.Some? && !st.Connect? {
      var c, c' := s.conn.value, s'.conn.value;
      assert Frames(c)[|c.queue|] == c.page;
      if st.Fetch? { UnseenFrom(c.after, st.rows); }
      if st.Finish? { FlushedFrom(c.gate); }
      if st.Pump? { assert Frames(c)[0] == c.queue[0]; }
      FramesStayGone(c, c', y, st.Pump?);
    }
  }

  lemma FramesStayGone(c: Conn, c': Conn, y: Item, pumped: bool)
    requires forall i :: 0 <= i < |Frames(c)| ==> y !in Frames(c)[i]
    requires y !in c'.page && |c'.queue| <= |c.queue| + 1
    requires pumped ==> c.queue != [] && c'.queue == c.queue[1..]
    requires !pumped ==> c.queue <= c'.queue && (|c'.queue| > |c.queue| ==> y !in c'.queue[|c.queue|])
    ensures forall i :: 0 <= i < |Frames(c')| ==> y !in Frames(c')[i]
  {
    forall i | 0 <= i < |Frames(c')| ensures y !in Frames(c')[i] {
      if pumped {
        assert Frames(c')[i] == Frames(c)[i + 1] || i == |c'.queue|;
      } else if i < |c.queue| {
        assert Frames(c')[i] == Frames(c)[i];
      }
    }
  }

  // ---------------------------------------------------------------- witnesses

  /** An idle connection whose replay is over. */
  const IDLE: System := INITIAL.(
    conn := Some(Conn(GateState(true, true, map[], []), map[], None, [], true, [], [], {})),
    current := Some(0), minted := 1)

  lemma IdleReachable() returns (steps: seq<Step>)
    ensures Legal(INITIAL, steps) && Run(INITIAL, steps) == IDLE && Inv(IDLE)
  {
    var a, b, c := Connect(0, map[], true), Fetch([]), Step.Finish(true);
    var s1 := Taken(INITIAL, a);
    var s2 := Taken(s1, b);
    assert Unseen(map[], []) == [] && StableSort.Sort([]) == [];
    assert s2.conn.value == Conn(NewGate(false), map[], None, [], true, [], [], {});
    assert Flushed(s2.conn.value.gate) == [] && s2.conn.value.sent + [] == [];
    assert Taken(s2, c).conn == IDLE.conn;
    assert Taken(s2, c) == IDLE;
    RunThree(INITIAL, s1, s2, a, b, c);
    steps := [a, b, c];
    InitialInv();
    RunKeepsInv(INITIAL, steps);
  }
}
