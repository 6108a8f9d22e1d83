/** Concurrent accepts of the same or different messages: claim, store, commit or release, with
    every port free to fail before or after taking effect. */
module Accept {
  import opened Ports

  datatype Slot = Pending | Done(num: int)

  /** Where one Accept call stands. A `Won` call owns its claim; a `Failed` one must still release it. */
  datatype Stage = Start | Won | Failed | Stored(num: int) | Acked(num: int) | Rejected

  datatype Call = Call(uuid: string, conv: string, stage: Stage)

  /** One committed accept transaction. */
  datatype Entry = Entry(uuid: string, conv: string, num: int)

  /** `slots` is the dedupe store, `log` the accept transactions in commit order, `undone` the
      store errors reported for transactions that had in fact committed, `expired` the dedupe
      records that timed out. */
  datatype State = State(
    slots: map<string, Slot>, lastSeq: map<string, int>, log: seq<Entry>, calls: seq<Call>,
    undone: multiset<string>, expired: multiset<string>)

  const INITIAL: State := State(map[], map[], [], [], multiset{}, multiset{})

  datatype StoreOutcome = Committed | NotCommitted | CommitUnknown

  datatype Step =
    | Begin(uuid: string, conv: string)
    | Claim(id: nat, port: Port)
    | Persist(id: nat, outcome: StoreOutcome)
    | Record(id: nat, port: Port)
    | Release(id: nat, port: Port)
    | Crash(id: nat)
    | Expire(uuid: string)

  predicate Enabled(s: State, st: Step) {
    match st
    case Begin(_, _) => true
    case Claim(id, _) => id < |s.calls| && s.calls[id].stage == Start
    case Persist(id, _) => id < |s.calls| && s.calls[id].stage == Won
    case Record(id, _) => id < |s.calls| && s.calls[id].stage.Stored?
    case Release(id, _) => id < |s.calls| && s.calls[id].stage == Failed
    case Crash(id) => id < |s.calls|
    case Expire(uuid) => uuid in s.slots
  }

  function At(s: State, id: nat, stage: Stage): State
    requires id < |s.calls|
  {
    s.(calls := s.calls[id := s.calls[id].(stage := stage)])
  }

  function LastSeq(s: State, conv: string): int {
    SeqIn(s.lastSeq, conv)
  }

  function SeqIn(lastSeq: map<string, int>, conv: string): int {
    if conv in lastSeq then lastSeq[conv] else 0
  }

  function Commit(s: State, c: Call): State {
    var num := LastSeq(s, c.conv) + 1;
    s.(lastSeq := s.lastSeq[c.conv := num], log := s.log + [Entry(c.uuid, c.conv, num)])
  }

  function Taken(s: State, st: Step): State
    requires Enabled(s, st)
  {
    match st
    case Begin(uuid, conv) => s.(calls := s.calls + [Call(uuid, conv, Start)])
    case Claim(id, port) =>
      var u := s.calls[id].uuid;
      if port == NeverRan then At(s, id, Rejected)
      else if u !in s.slots then
        At(s.(slots := s.slots[u := Pending]), id, if port == Answered then Won else Rejected)
      else if port == AnswerLost || s.slots[u].Pending? then At(s, id, Rejected)
      else At(s, id, Acked(s.slots[u].num))
    case Persist(id, outcome) =>
      var c := s.calls[id];
      (match outcome
       case Committed => At(Commit(s, c), id, Stored(LastSeq(s, c.conv) + 1))
       case NotCommitted => At(s, id, Failed)
       case CommitUnknown => At(Commit(s, c).(undone := s.undone + multiset{c.uuid}), id, Failed))
    case Record(id, port) =>
      var c := s.calls[id];
      var s' := if port == NeverRan then s else s.(slots := s.slots[c.uuid := Done(c.stage.num)]);
      At(s', id, Acked(c.stage.num))
    case Release(id, port) =>
      var s' := if port == NeverRan then s else s.(slots := s.slots - {s.calls[id].uuid});
      At(s', id, Rejected)
    case Crash(id) =>
      if s.calls[id].stage.Acked? then s else At(s, id, Rejected)
    case Expire(uuid) => s.(slots := s.slots - {uuid}, expired := s.expired + multiset{uuid})
  }

  ghost predicate Legal(s: State, steps: seq<Step>)
    decreases |steps|
  {
    steps != [] ==> Enabled(s, steps[0]) && Legal(Taken(s, steps[0]), steps[1..])
  }

  ghost function Run(s: State, steps: seq<Step>): State
    requires Legal(s, steps)
    decreases |steps|
  {
    if steps == [] then s else Run(Taken(s, steps[0]), steps[1..])
  }

  // ------------------------------------------------------------------ counting

  /** How often `u` was sequenced. */
  function Sequenced(log: seq<Entry>, u: string): nat {
    if log == [] then 0
    else Sequenced(log[..|log| - 1], u) + if log[|log| - 1].uuid == u then 1 else 0
  }

  function Holds(c: Call, u: string): nat {
    if c.uuid == u && (c.stage == Won || c.stage == Failed) then 1 else 0
  }

  /** How many calls own a claim on `u` they have not used or given back. */
  function Holders(calls: seq<Call>, u: string): nat {
    if calls == [] then 0 else Holders(calls[..|calls| - 1], u) + Holds(calls[|calls| - 1], u)
  }

  lemma {:induction false} SequencedSnoc(log: seq<Entry>, e: Entry, u: string)
    ensures Sequenced(log + [e], u) == Sequenced(log, u) + if e.uuid == u then 1 else 0
  {
    assert (log + [e])[..|log|] == log;
  }

  lemma {:induction false} HoldersSnoc(calls: seq<Call>, c: Call, u: string)
    ensures Holders(calls + [c], u) == Holders(calls, u) + Holds(c, u)
  {
    assert (calls + [c])[..|calls|] == calls;
  }

  lemma {:induction false} HoldersAt(calls: seq<Call>, id: nat, c: Call, u: string)
    requires id < |calls|
    ensures Holders(calls[id := c], u) == Holders(calls, u) - Holds(calls[id], u) + Holds(c, u)
    ensures Holders(calls, u) >= Holds(calls[id], u)
  {
    var last := |calls| - 1;
    if id == last {
      assert calls[id := c][..last] == calls[..last];
    } else {
      HoldersAt(calls[..last], id, c, u);
      assert calls[id := c][..last] == calls[..last][id := c];
    }
  }

  // ---------------------------------------------------------------- invariants

  /** What pays for the sequencings and claims of a message. */
  function Credit(s: State, u: string): nat {
    s.undone[u] + s.expired[u] + if u in s.slots then 1 else 0
  }

  /** The ledger of a message: each time it is sequenced or claimed must be paid for by the claim on
      record, by a commit whose success was not reported, or by an expired record. */
  ghost predicate Ledger(s: State, u: string) {
    Sequenced(s.log, u) + Holders(s.calls, u) <= Credit(s, u)
  }

  /** Every seq an ack, a record or a pending call carries was assigned to that message. */
  ghost predicate SeqsAreReal(s: State) {
    && (forall u :: u in s.slots && s.slots[u].Done? ==> Assigned(s.log, u, s.slots[u].num))
    && (forall i :: 0 <= i < |s.calls| && (s.calls[i].stage.Stored? || s.calls[i].stage.Acked?) ==>
          Assigned(s.log, s.calls[i].uuid, s.calls[i].stage.num))
  }

  ghost predicate Assigned(log: seq<Entry>, u: string, num: int) {
    exists i :: 0 <= i < |log| && log[i].uuid == u && log[i].num == num
  }

  function InConv(log: seq<Entry>, conv: string): nat {
    if log == [] then 0 else InConv(log[..|log| - 1], conv) + if log[|log| - 1].conv == conv then 1 else 0
  }

  /** Numbers are handed out in commit order: per conversation 1, 2, 3, ... without a gap. */
  ghost predicate Numbered(log: seq<Entry>, lastSeq: map<string, int>) {
    && (forall i :: 0 <= i < |log| ==> log[i].num == InConv(log[..i], log[i].conv) + 1)
    && (forall conv :: SeqIn(lastSeq, conv) == InConv(log, conv))
  }

  ghost predicate Inv(s: State) {
    (forall u :: Ledger(s, u)) && SeqsAreReal(s) && Numbered(s.log, s.lastSeq)
  }

  /** A call moves on: the ledger follows from what the step did to the other columns. */
  lemma {:induction false} MoveKeepsLedger(s: State, s': State, id: nat, stage: Stage, u: string, sequenced: nat, credit: int)
    requires id < |s.calls| && Ledger(s, u) && s'.calls == At(s, id, stage).calls
    requires Sequenced(s'.log, u) == Sequenced(s.log, u) + sequenced
    requires Credit(s', u) >= Credit(s, u) + credit
    requires sequenced + Holds(s.calls[id].(stage := stage), u) <= Holds(s.calls[id], u) + credit
    ensures Ledger(s', u)
  {
    HoldersAt(s.calls, id, s.calls[id].(stage := stage), u);
  }

  lemma {:induction false} CommitIsSequenced(s: State, c: Call, u: string)
    ensures Sequenced(Commit(s, c).log, u) == Sequenced(s.log, u) + if c.uuid == u then 1 else 0
    ensures Commit(s, c).calls == s.calls && Credit(Commit(s, c), u) == Credit(s, u)
  {
    SequencedSnoc(s.log, Entry(c.uuid, c.conv, LastSeq(s, c.conv) + 1), u);
  }

  lemma {:induction false} CommittedKeepsLedger(s: State, id: nat, num: int, u: string)
    requires id < |s.calls| && s.calls[id].stage == Won && Ledger(s, u)
    ensures Ledger(At(Commit(s, s.calls[id]), id, Stored(num)), u)
  {
    var c := s.calls[id];
    var t := Commit(s, c);
    CommitIsSequenced(s, c, u);
    HoldersAt(s.calls, id, c.(stage := Stored(num)), u);
  }

  lemma {:induction false} UnknownKeepsLedger(s: State, id: nat, u: string)
    requires id < |s.calls| && s.calls[id].stage == Won && Ledger(s, u)
    ensures
      var c := s.calls[id];
      Ledger(At(Commit(s, c).(undone := s.undone + multiset{c.uuid}), id, Failed), u)
  {
    var c := s.calls[id];
    CommitIsSequenced(s, c, u);
    HoldersAt(s.calls, id, c.(stage := Failed), u);
  }

  lemma {:induction false} FailedKeepsLedger(s: State, id: nat, u: string)
    requires id < |s.calls| && s.calls[id].stage == Won && Ledger(s, u)
    ensures Ledger(At(s, id, Failed), u)
  {
    HoldersAt(s.calls, id, s.calls[id].(stage := Failed), u);
  }

  lemma {:induction false} PersistKeepsLedger(s: State, st: Step, u: string)
    requires st.Persist? && Enabled(s, st) && Ledger(s, u)
    ensures Ledger(Taken(s, st), u)
  {
    var Persist(id, outcome) := st;
    var c := s.calls[id];
    match outcome
    case Committed =>
      CommittedKeepsLedger(s, id, LastSeq(s, c.conv) + 1, u);
      assert Taken(s, st) == At(Commit(s, c), id, Stored(LastSeq(s, c.conv) + 1));
    case NotCommitted =>
      FailedKeepsLedger(s, id, u);
      assert Taken(s, st) == At(s, id, Failed);
    case CommitUnknown =>
      UnknownKeepsLedger(s, id, u);
      assert Taken(s, st) == At(Commit(s, c).(undone := s.undone + multiset{c.uuid}), id, Failed);
  }

  lemma {:induction false} CallKeepsLedger(s: State, st: Step, u: string)
    requires (st.Claim? || st.Record? || st.Release? || st.Crash?) && Enabled(s, st) && Ledger(s, u)
    ensures Ledger(Taken(s, st), u)
  {
    var s' := Taken(s, st);
    assert s'.log == s.log && s'.undone == s.undone && s'.expired == s.expired;
    MoveKeepsLedger(s, s', st.id, s'.calls[st.id].stage, u, 0, Credit(s', u) - Credit(s, u));
  }

  lemma {:induction false} StepKeepsLedger(s: State, st: Step, u: string)
    requires Enabled(s, st) && Ledger(s, u)
    ensures Ledger(Taken(s, st), u)
  {
    match st
    case Begin(uuid, conv) => HoldersSnoc(s.calls, Call(uuid, conv, Start), u);
    case Persist(_, _) => PersistKeepsLedger(s, st, u);
    case Expire(uuid) =>
    case _ => CallKeepsLedger(s, st, u);
  }

  lemma {:induction false} StepKeepsNumbers(s: State, st: Step)
    requires Enabled(s, st) && Numbered(s.log, s.lastSeq)
    ensures Numbered(Taken(s, st).log, Taken(s, st).lastSeq)
  {
    if st.Persist? && st.outcome != NotCommitted {
      CommitKeepsNumbers(s, s.calls[st.id]);
    } else {
      assert Taken(s, st).log == s.log && Taken(s, st).lastSeq == s.lastSeq;
    }
  }

  lemma {:induction false} CommitKeepsNumbers(s: State, c: Call)
    requires Numbered(s.log, s.lastSeq)
    ensures Numbered(Commit(s, c).log, Commit(s, c).lastSeq)
  {
    var s' := Commit(s, c);
    var n := |s.log|;
    assert s'.log[..n] == s.log;
    forall i | 0 <= i < |s'.log| ensures s'.log[i].num == InConv(s'.log[..i], s'.log[i].conv) + 1 {
      if i < n { assert s'.log[..i] == s.log[..i]; }
    }
  }

  lemma {:induction false} AssignedGrows(log: seq<Entry>, more: seq<Entry>, u: string, num: int)
    ensures Assigned(log, u, num) ==> Assigned(log + more, u, num)
  {
    if Assigned(log, u, num) {
      var i :| 0 <= i < |log| && log[i].uuid == u && log[i].num == num;
      assert (log + more)[i] == log[i];
    }
  }

  lemma {:induction false} CommitKeepsSeqs(s: State, id: nat, stage: Stage)
    requires id < |s.calls| && SeqsAreReal(s)
    requires stage == Failed || stage == Stored(LastSeq(s, s.calls[id].conv) + 1)
    ensures SeqsAreReal(At(Commit(s, s.calls[id]), id, stage))
  {
    var c := s.calls[id];
    var e := Entry(c.uuid, c.conv, LastSeq(s, c.conv) + 1);
    var s' := At(Commit(s, c), id, stage);
    assert s'.log == s.log + [e] && s'.log[|s.log|] == e;
    forall u, num ensures Assigned(s.log, u, num) ==> Assigned(s'.log, u, num) {
      AssignedGrows(s.log, [e], u, num);
    }
  }

  lemma {:induction false} MoveKeepsSeqs(s: State, id: nat, stage: Stage)
    requires id < |s.calls| && SeqsAreReal(s)
    requires stage.Stored? || stage.Acked? ==> Assigned(s.log, s.calls[id].uuid, stage.num)
    ensures SeqsAreReal(At(s, id, stage))
  {
  }

  lemma {:induction false} StepKeepsSeqs(s: State, st: Step)
    requires Enabled(s, st) && SeqsAreReal(s)
    ensures SeqsAreReal(Taken(s, st))
  {
    match st
    case Begin(_, _) =>
    case Expire(_) =>
    case Persist(id, outcome) => PersistKeepsSeqs(s, st);
    case Record(id, port) =>
      var c := s.calls[id];
      MoveKeepsSeqs(if port == NeverRan then s else s.(slots := s.slots[c.uuid := Done(c.stage.num)]), id, Acked(c.stage.num));
    case Release(id, port) =>
      MoveKeepsSeqs(if port == NeverRan then s else s.(slots := s.slots - {s.calls[id].uuid}), id, Rejected);
    case Claim(id, port) => ClaimKeepsSeqs(s, st);
    case Crash(id) => if !s.calls[id].stage.Acked? { MoveKeepsSeqs(s, id, Rejected); }
  }

  lemma {:induction false} ClaimKeepsSeqs(s: State, st: Step)
    requires Enabled(s, st) && SeqsAreReal(s) && st.Claim?
    ensures SeqsAreReal(Taken(s, st))
  {
    var u, s' := s.calls[st.id].uuid, Taken(s, st);
    MoveKeepsSeqs(s.(slots := s'.slots), st.id, s'.calls[st.id].stage);
  }

  lemma {:induction false} PersistKeepsSeqs(s: State, st: Step)
    requires Enabled(s, st) && SeqsAreReal(s) && st.Persist?
    ensures SeqsAreReal(Taken(s, st))
  {
    var c, s' := s.calls[st.id], Taken(s, st);
    if st.outcome == NotCommitted {
      MoveKeepsSeqs(s, st.id, Failed);
    } else {
      var stage := if st.outcome == Committed then Stored(LastSeq(s, c.conv) + 1) else Failed;
      CommitKeepsSeqs(s, st.id, stage);
      assert s' == At(Commit(s, c), st.id, stage).(undone := s'.undone);
    }
  }

  lemma {:induction false} StepKeepsInv(s: State, st: Step)
    requires Inv(s) && Enabled(s, st)
    ensures Inv(Taken(s, st))
  {
    forall u ensures Ledger(Taken(s, st), u) { StepKeepsLedger(s, st, u); }
    StepKeepsSeqs(s, st);
    StepKeepsNumbers(s, st);
  }

  lemma {:induction false} RunKeepsInv(s: State, steps: seq<Step>)
    requires Inv(s) && Legal(s, steps)
    ensures Inv(Run(s, steps))
    decreases |steps|
  {
    if steps != [] {
      StepKeepsInv(s, steps[0]);
      RunKeepsInv(Taken(s, steps[0]), steps[1..]);
    }
  }

  // ---------------------------------------------------------------- theorems

  lemma {:induction false} SequencedOnce(log: seq<Entry>, i: nat, j: nat, u: string)
    requires i < j < |log| && log[i].uuid == u && log[j].uuid == u
    ensures Sequenced(log, u) >= 2
  {
    var last := |log| - 1;
    if j < last {
      SequencedOnce(log[..last], i, j, u);
    } else {
      SequencedAtLeastOnce(log[..last], i, u);
    }
  }

  lemma {:induction false} SequencedAtLeastOnce(log: seq<Entry>, i: nat, u: string)
    requires i < |log| && log[i].uuid == u
    ensures Sequenced(log, u) >= 1
  {
    if i < |log| - 1 { SequencedAtLeastOnce(log[..|log| - 1], i, u); }
  }

  /** In every interleaving of any number of accepts, with claims, commits and releases failing at
      will and callers crashing anywhere, a message is sequenced at most once more than the times a
      committed transaction was reported as failed or its dedupe record expired. */
  lemma {:induction false} SequencedAtMost(steps: seq<Step>, u: string)
    requires Legal(INITIAL, steps)
    ensures
      var s := Run(INITIAL, steps);
      Sequenced(s.log, u) <= 1 + s.undone[u] + s.expired[u]
  {
    RunKeepsInv(INITIAL, steps);
    assert Ledger(Run(INITIAL, steps), u);
  }

  /** With an atomic store and unexpired records every successful ack for a message carries the one
      seq it was sequenced with. */
  lemma {:induction false} IdenticalAcks(steps: seq<Step>, i: nat, j: nat)
    requires Legal(INITIAL, steps)
    requires
      var s := Run(INITIAL, steps);
      && i < |s.calls| && j < |s.calls| && s.calls[i].uuid == s.calls[j].uuid
      && s.calls[i].stage.Acked? && s.calls[j].stage.Acked?
      && s.undone[s.calls[i].uuid] == 0 && s.expired[s.calls[i].uuid] == 0
    ensures
      var s := Run(INITIAL, steps);
      s.calls[i].stage.num == s.calls[j].stage.num && Sequenced(s.log, s.calls[i].uuid) == 1
  {
    var s := Run(INITIAL, steps);
    RunKeepsInv(INITIAL, steps);
    SequencedAtMost(steps, s.calls[i].uuid);
    var u := s.calls[i].uuid;
    var a :| 0 <= a < |s.log| && s.log[a].uuid == u && s.log[a].num == s.calls[i].stage.num;
    var b :| 0 <= b < |s.log| && s.log[b].uuid == u && s.log[b].num == s.calls[j].stage.num;
    SequencedAtLeastOnce(s.log, a, u);
    if a < b { SequencedOnce(s.log, a, b, u); }
    if b < a { SequencedOnce(s.log, b, a, u); }
  }

  lemma {:induction false} RunAppend(s: State, a: seq<Step>, b: seq<Step>)
    requires Legal(s, a) && Legal(Run(s, a), b)
    ensures Legal(s, a + b) && Run(s, a + b) == Run(Run(s, a), b)
    decreases |a|
  {
    if a == [] {
      assert a + b == b;
    } else {
      RunAppend(Taken(s, a[0]), a[1..], b);
      assert (a + b)[1..] == a[1..] + b;
    }
  }

  lemma {:induction false} Run1(s: State, st: Step)
    requires Enabled(s, st)
    ensures Legal(s, [st]) && Run(s, [st]) == Taken(s, st)
  {
    assert Legal(Taken(s, st), []);
  }

  // ----------------------------------------------------------- the exact price

  predicate Reported(st: Step) {
    !st.Expire? && !(st.Persist? && st.outcome == CommitUnknown)
  }

  ghost predicate AllReported(steps: seq<Step>) {
    forall i :: 0 <= i < |steps| ==> Reported(steps[i])
  }

  /** No claim is on record for `u`, or some call still holds one. */
  predicate Sequencable(s: State, u: string) {
    u !in s.slots || Holders(s.calls, u) > 0
  }

  lemma {:induction false} NoHolder(calls: seq<Call>, id: nat, u: string)
    requires id < |calls| && Holders(calls, u) == 0
    ensures Holds(calls[id], u) == 0
  {
    HoldersAt(calls, id, calls[id], u);
  }

  lemma {:induction false} SomeHolder(calls: seq<Call>, u: string) returns (id: nat)
    requires Holders(calls, u) > 0
    ensures id < |calls| && Holds(calls[id], u) == 1
    decreases |calls|
  {
    id := |calls| - 1;
    if Holds(calls[id], u) == 0 {
      var k := SomeHolder(calls[..|calls| - 1], u);
      id := k;
    }
  }

  lemma {:induction false} MoveStaysUnheld(s: State, id: nat, stage: Stage, u: string)
    requires id < |s.calls| && Holders(s.calls, u) == 0 && Holds(s.calls[id].(stage := stage), u) == 0
    ensures Holders(At(s, id, stage).calls, u) == 0
  {
    HoldersAt(s.calls, id, s.calls[id].(stage := stage), u);
  }

  lemma {:induction false} StaysUnsequencable(s: State, st: Step, u: string)
    requires Enabled(s, st) && Reported(st) && !Sequencable(s, u)
    ensures !Sequencable(Taken(s, st), u) && Sequenced(Taken(s, st).log, u) == Sequenced(s.log, u)
  {
    match st
    case Begin(uuid, conv) => HoldersSnoc(s.calls, Call(uuid, conv, Start), u);
    case Persist(id, outcome) => PersistStays(s, id, outcome, u);
    case Claim(id, port) => ClaimStays(s, id, port, u);
    case Record(id, port) => RecordStays(s, id, port, u);
    case Release(id, port) => ReleaseStays(s, id, port, u);
    case Crash(id) => if !s.calls[id].stage.Acked? { MoveStaysUnheld(s, id, Rejected, u); }
  }

  lemma {:induction false} PersistStays(s: State, id: nat, outcome: StoreOutcome, u: string)
    requires Enabled(s, Persist(id, outcome)) && outcome != CommitUnknown && !Sequencable(s, u)
    ensures
      var s' := Taken(s, Persist(id, outcome));
      !Sequencable(s', u) && Sequenced(s'.log, u) == Sequenced(s.log, u)
  {
    NoHolder(s.calls, id, u);
    var c := s.calls[id];
    assert c.uuid != u;
    if outcome == Committed {
      CommitIsSequenced(s, c, u);
      CommittedStays(Commit(s, c), id, LastSeq(s, c.conv) + 1, u);
    } else {
      MoveStaysUnheld(s, id, Failed, u);
    }
  }

  lemma {:induction false} CommittedStays(s: State, id: nat, num: int, u: string)
    requires id < |s.calls| && s.calls[id].uuid != u && !Sequencable(s, u)
    ensures !Sequencable(At(s, id, Stored(num)), u)
  {
    MoveStaysUnheld(s, id, Stored(num), u);
  }

  lemma {:induction false} RecordStays(s: State, id: nat, port: Port, u: string)
    requires Enabled(s, Record(id, port)) && !Sequencable(s, u)
    ensures !Sequencable(Taken(s, Record(id, port)), u) && Taken(s, Record(id, port)).log == s.log
  {
    var s' := Taken(s, Record(id, port));
    MoveStaysUnheld(s, id, s'.calls[id].stage, u);
    assert s'.calls == At(s, id, s'.calls[id].stage).calls;
  }

  lemma {:induction false} ReleaseStays(s: State, id: nat, port: Port, u: string)
    requires Enabled(s, Release(id, port)) && !Sequencable(s, u)
    ensures !Sequencable(Taken(s, Release(id, port)), u) && Taken(s, Release(id, port)).log == s.log
  {
    var s' := Taken(s, Release(id, port));
    NoHolder(s.calls, id, u);
    assert s.calls[id].uuid != u;
    MoveStaysUnheld(s, id, Rejected, u);
    assert s'.calls == At(s, id, Rejected).calls;
  }

  lemma {:induction false} ClaimStays(s: State, id: nat, port: Port, u: string)
    requires Enabled(s, Claim(id, port)) && !Sequencable(s, u)
    ensures !Sequencable(Taken(s, Claim(id, port)), u) && Taken(s, Claim(id, port)).log == s.log
  {
    var s' := Taken(s, Claim(id, port));
    var stage := s'.calls[id].stage;
    assert s.calls[id].uuid == u ==> stage != Won;
    MoveStaysUnheld(s, id, stage, u);
    assert s'.calls == At(s, id, stage).calls;
  }

  lemma {:induction false} NeverAgain(s: State, steps: seq<Step>, u: string)
    requires Legal(s, steps) && AllReported(steps) && !Sequencable(s, u)
    ensures Sequenced(Run(s, steps).log, u) == Sequenced(s.log, u)
    decreases |steps|
  {
    if steps != [] {
      assert Reported(steps[0]);
      StaysUnsequencable(s, steps[0], u);
      assert forall i :: 0 <= i < |steps[1..]| ==> steps[1..][i] == steps[i + 1];
      NeverAgain(Taken(s, steps[0]), steps[1..], u);
    }
  }

  /** From `s` to `s'` the call `id` sequenced `u` once, reported or not. */
  ghost predicate SequencedBy(s: State, s': State, id: nat, u: string, reported: bool) {
    && Sequenced(s'.log, u) == Sequenced(s.log, u) + 1 && s'.expired[u] == s.expired[u]
    && s'.undone[u] == s.undone[u] + (if reported then 0 else 1)
    && id < |s'.calls| && s'.calls[id].uuid == u && (!reported ==> s'.calls[id].stage == Failed)
  }

  /** A fresh call claims an unclaimed message and its transaction ends as given. */
  lemma {:induction false} TryOnce(s: State, u: string, outcome: StoreOutcome) returns (steps: seq<Step>)
    requires u !in s.slots && outcome != NotCommitted
    ensures Legal(s, steps) && (outcome == Committed ==> AllReported(steps))
    ensures SequencedBy(s, Run(s, steps), |s.calls|, u, outcome == Committed) && u in Run(s, steps).slots
  {
    var n := |s.calls|;
    var a, b, c := Begin(u, "c"), Claim(n, Answered), Persist(n, outcome);
    var s1, s2 := Taken(s, a), Claimed(s, u);
    ClaimedAnew(s, u);
    steps := [a, b, c];
    RunThree(s, s1, s2, a, b, c);
    TriedOnce(s, s2, u, outcome);
  }

  function Claimed(s: State, u: string): State {
    s.(slots := s.slots[u := Pending], calls := s.calls + [Call(u, "c", Won)])
  }

  lemma {:induction false} RunThree(s: State, s1: State, s2: State, a: Step, b: Step, c: Step)
    requires Enabled(s, a) && s1 == Taken(s, a) && Enabled(s1, b) && s2 == Taken(s1, b) && Enabled(s2, c)
    ensures Legal(s, [a, b, c]) && Run(s, [a, b, c]) == Taken(s2, c)
  {
    Run1(s, a);
    Run1(s1, b);
    Run1(s2, c);
    RunAppend(s1, [b], [c]);
    RunAppend(s, [a], [b] + [c]);
    assert [a] + ([b] + [c]) == [a, b, c];
  }

  lemma {:induction false} TriedOnce(s: State, s2: State, u: string, outcome: StoreOutcome)
    requires outcome != NotCommitted && s2 == Claimed(s, u)
    ensures
      var s3 := Taken(s2, Persist(|s.calls|, outcome));
      SequencedBy(s, s3, |s.calls|, u, outcome == Committed) && u in s3.slots
  {
    PersistedOnce(s2, |s.calls|, outcome);
  }

  lemma {:induction false} PersistedOnce(s: State, id: nat, outcome: StoreOutcome)
    requires id < |s.calls| && s.calls[id].stage == Won && outcome != NotCommitted
    ensures SequencedBy(s, Taken(s, Persist(id, outcome)), id, s.calls[id].uuid, outcome == Committed)
    ensures Taken(s, Persist(id, outcome)).slots == s.slots
  {
    CommitIsSequenced(s, s.calls[id], s.calls[id].uuid);
  }

  lemma {:induction false} ClaimedAnew(s: State, u: string)
    requires u !in s.slots
    ensures
      var n := |s.calls|;
      var s1 := Taken(s, Begin(u, "c"));
      && Enabled(s1, Claim(n, Answered))
      && Taken(s1, Claim(n, Answered)) == Claimed(s, u)
  {
    var n := |s.calls|;
    var s1 := Taken(s, Begin(u, "c"));
    assert s1.calls[n := Call(u, "c", Won)] == s.calls + [Call(u, "c", Won)];
  }

  /** Without a further unreported commit or expiry, a message can be sequenced once more if and only if it
      is unclaimed or its claim is still held. */
  lemma {:induction false} SequencableExactly(s: State, u: string)
    ensures Sequencable(s, u)
       <==> exists steps :: Legal(s, steps) && AllReported(steps) && Sequenced(Run(s, steps).log, u) > Sequenced(s.log, u)
  {
    if Sequencable(s, u) {
      var steps := SequenceAgain(s, u);
    } else {
      forall steps | Legal(s, steps) && AllReported(steps)
        ensures Sequenced(Run(s, steps).log, u) == Sequenced(s.log, u)
      {
        NeverAgain(s, steps, u);
      }
    }
  }

  lemma {:induction false} SequenceAgain(s: State, u: string) returns (steps: seq<Step>)
    requires Sequencable(s, u)
    ensures Legal(s, steps) && AllReported(steps) && Sequenced(Run(s, steps).log, u) > Sequenced(s.log, u)
  {
    if u !in s.slots {
      steps := TryOnce(s, u, Committed);
    } else {
      var id := SomeHolder(s.calls, u);
      if s.calls[id].stage == Won {
        steps := [Persist(id, Committed)];
        Run1(s, steps[0]);
        CommitIsSequenced(s, s.calls[id], u);
      } else {
        var s1 := Taken(s, Release(id, Answered));
        Run1(s, Release(id, Answered));
        var rest := TryOnce(s1, u, Committed);
        RunAppend(s, [Release(id, Answered)], rest);
        steps := [Release(id, Answered)] + rest;
      }
    }
  }

  /** The bound of SequencedAtMost is reached for every number of unreported commits and expiries. */
  lemma {:induction false} BoundReached(u: string, undone: nat, expired: nat) returns (steps: seq<Step>)
    ensures Legal(INITIAL, steps)
    ensures
      var s := Run(INITIAL, steps);
      s.undone[u] == undone && s.expired[u] == expired && Sequenced(s.log, u) == 1 + undone + expired
  {
    var before := ReachedUnclaimed(u, undone, expired);
    var s := Run(INITIAL, before);
    var last := TryOnce(s, u, Committed);
    RunAppend(INITIAL, before, last);
    steps := before + last;
  }

  lemma {:induction false} ReachedUnclaimed(u: string, undone: nat, expired: nat) returns (steps: seq<Step>)
    ensures Legal(INITIAL, steps)
    ensures
      var s := Run(INITIAL, steps);
      && s.undone[u] == undone && s.expired[u] == expired && Sequenced(s.log, u) == undone + expired
      && u !in s.slots
    decreases undone + expired
  {
    if undone > 0 {
      var before := ReachedUnclaimed(u, undone - 1, expired);
      var s := Run(INITIAL, before);
      var round := UndoneRound(s, u);
      RunAppend(INITIAL, before, round);
      steps := before + round;
    } else if expired > 0 {
      var before := ReachedUnclaimed(u, undone, expired - 1);
      var s := Run(INITIAL, before);
      var round := ExpiredRound(s, u);
      RunAppend(INITIAL, before, round);
      steps := before + round;
    } else {
      steps := [];
    }
  }

  /** The commit's success is not reported; the claim is released. */
  lemma {:induction false} UndoneRound(s: State, u: string) returns (steps: seq<Step>)
    requires u !in s.slots
    ensures Legal(s, steps) && u !in Run(s, steps).slots && Run(s, steps).expired[u] == s.expired[u]
    ensures Sequenced(Run(s, steps).log, u) == Sequenced(s.log, u) + 1 && Run(s, steps).undone[u] == s.undone[u] + 1
  {
    var first := TryOnce(s, u, CommitUnknown);
    var s1, st := Run(s, first), Release(|s.calls|, Answered);
    Run1(s1, st);
    RunAppend(s, first, [st]);
    steps := first + [st];
  }

  /** The message is stored and its dedupe record times out. */
  lemma {:induction false} ExpiredRound(s: State, u: string) returns (steps: seq<Step>)
    requires u !in s.slots
    ensures Legal(s, steps) && u !in Run(s, steps).slots && Run(s, steps).undone[u] == s.undone[u]
    ensures Sequenced(Run(s, steps).log, u) == Sequenced(s.log, u) + 1 && Run(s, steps).expired[u] == s.expired[u] + 1
  {
    var first := TryOnce(s, u, Committed);
    var s1 := Run(s, first);
    Run1(s1, Expire(u));
    RunAppend(s, first, [Expire(u)]);
    steps := first + [Expire(u)];
  }

  /** One commit whose success is not reported is enough for two sequence numbers. */
  lemma {:induction false} UnreportedCommitSequencesTwice(u: string) returns (steps: seq<Step>)
    ensures Legal(INITIAL, steps) && Run(INITIAL, steps).undone[u] == 1 && Run(INITIAL, steps).expired[u] == 0
    ensures Sequenced(Run(INITIAL, steps).log, u) == 2
  {
    steps := BoundReached(u, 1, 0);
  }

  // ----------------------------------------------------------------- retries

  function Works(c: Call, u: string): nat {
    if c.uuid == u && (c.stage == Won || c.stage == Failed || c.stage.Stored?) then 1 else 0
  }

  /** How many calls are past their claim on `u` and not yet answered. */
  function Workers(calls: seq<Call>, u: string): nat {
    if calls == [] then 0 else Workers(calls[..|calls| - 1], u) + Works(calls[|calls| - 1], u)
  }

  lemma {:induction false} WorkersSnoc(calls: seq<Call>, c: Call, u: string)
    ensures Workers(calls + [c], u) == Workers(calls, u) + Works(c, u)
  {
    assert (calls + [c])[..|calls|] == calls;
  }

  lemma {:induction false} WorkersAt(calls: seq<Call>, id: nat, c: Call, u: string)
    requires id < |calls|
    ensures Workers(calls[id := c], u) == Workers(calls, u) - Works(calls[id], u) + Works(c, u)
    ensures Workers(calls, u) >= Works(calls[id], u)
  {
    var last := |calls| - 1;
    if id == last {
      assert calls[id := c][..last] == calls[..last];
    } else {
      WorkersAt(calls[..last], id, c, u);
      assert calls[id := c][..last] == calls[..last][id := c];
    }
  }

  function PendingOn(slots: map<string, Slot>, u: string): nat {
    if u in slots && slots[u].Pending? then 1 else 0
  }

  /** At most one call works on `u`, and only under a pending claim. */
  ghost predicate Exclusive(slots: map<string, Slot>, calls: seq<Call>, u: string) {
    Workers(calls, u) <= PendingOn(slots, u)
  }

  ghost predicate NoExpiry(steps: seq<Step>, u: string) {
    forall i :: 0 <= i < |steps| ==> steps[i] != Expire(u)
  }

  /** One call moves on and the slots change: no more workers are added than pending claims. */
  lemma {:induction false} MoveKeepsExclusive(s: State, id: nat, c: Call, slots: map<string, Slot>, u: string)
    requires id < |s.calls| && Exclusive(s.slots, s.calls, u)
    requires Works(c, u) - Works(s.calls[id], u) <= PendingOn(slots, u) - PendingOn(s.slots, u)
    ensures Exclusive(slots, s.calls[id := c], u)
  {
    WorkersAt(s.calls, id, c, u);
  }

  /** A call at work on `u` does so under its pending claim. */
  lemma {:induction false} WorkerHasClaim(s: State, id: nat, u: string)
    requires id < |s.calls| && Exclusive(s.slots, s.calls, u) && Works(s.calls[id], u) == 1
    ensures PendingOn(s.slots, u) == 1
  {
    WorkersAt(s.calls, id, s.calls[id], u);
  }

  lemma {:induction false} ClaimKeepsExclusive(s: State, id: nat, port: Port, u: string)
    requires Enabled(s, Claim(id, port)) && Exclusive(s.slots, s.calls, u)
    ensures Exclusive(Taken(s, Claim(id, port)).slots, Taken(s, Claim(id, port)).calls, u)
  {
    var s' := Taken(s, Claim(id, port));
    MoveKeepsExclusive(s, id, s.calls[id].(stage := s'.calls[id].stage), s'.slots, u);
    assert s'.calls == s.calls[id := s.calls[id].(stage := s'.calls[id].stage)];
  }

  lemma {:induction false} PersistKeepsExclusive(s: State, id: nat, outcome: StoreOutcome, u: string)
    requires Enabled(s, Persist(id, outcome)) && Exclusive(s.slots, s.calls, u)
    ensures Exclusive(Taken(s, Persist(id, outcome)).slots, Taken(s, Persist(id, outcome)).calls, u)
  {
    var s' := Taken(s, Persist(id, outcome));
    MoveKeepsExclusive(s, id, s.calls[id].(stage := s'.calls[id].stage), s.slots, u);
    assert s'.slots == s.slots && s'.calls == s.calls[id := s.calls[id].(stage := s'.calls[id].stage)];
  }

  lemma {:induction false} RecordKeepsExclusive(s: State, id: nat, port: Port, u: string)
    requires Enabled(s, Record(id, port)) && Exclusive(s.slots, s.calls, u)
    ensures Exclusive(Taken(s, Record(id, port)).slots, Taken(s, Record(id, port)).calls, u)
  {
    var s', c := Taken(s, Record(id, port)), s.calls[id];
    if c.uuid == u { WorkerHasClaim(s, id, u); }
    MoveKeepsExclusive(s, id, c.(stage := Acked(c.stage.num)), s'.slots, u);
    assert s'.calls == s.calls[id := c.(stage := Acked(c.stage.num))];
  }

  lemma {:induction false} ReleaseKeepsExclusive(s: State, id: nat, port: Port, u: string)
    requires Enabled(s, Release(id, port)) && Exclusive(s.slots, s.calls, u)
    ensures Exclusive(Taken(s, Release(id, port)).slots, Taken(s, Release(id, port)).calls, u)
  {
    var s', c := Taken(s, Release(id, port)), s.calls[id];
    if c.uuid == u { WorkerHasClaim(s, id, u); }
    MoveKeepsExclusive(s, id, c.(stage := Rejected), s'.slots, u);
    assert s'.calls == s.calls[id := c.(stage := Rejected)];
  }

  lemma {:induction false} StepKeepsExclusive(s: State, st: Step, u: string)
    requires Enabled(s, st) && st != Expire(u) && Exclusive(s.slots, s.calls, u)
    ensures Exclusive(Taken(s, st).slots, Taken(s, st).calls, u)
  {
    match st
    case Begin(uuid, conv) => WorkersSnoc(s.calls, Call(uuid, conv, Start), u);
    case Expire(_) =>
    case Claim(id, port) => ClaimKeepsExclusive(s, id, port, u);
    case Persist(id, outcome) => PersistKeepsExclusive(s, id, outcome, u);
    case Record(id, port) => RecordKeepsExclusive(s, id, port, u);
    case Release(id, port) => ReleaseKeepsExclusive(s, id, port, u);
    case Crash(id) => MoveKeepsExclusive(s, id, s.calls[id].(stage := Rejected), s.slots, u);
  }

  ghost predicate OnRecord(s: State, u: string, n: int) {
    u in s.slots && s.slots[u] == Done(n)
  }

  /** Of the calls of `u` nobody holds a claim, and whoever still has a number to record has this one. */
  ghost predicate Undisturbed(calls: seq<Call>, u: string, n: int) {
    forall i :: 0 <= i < |calls| && calls[i].uuid == u ==> Harmless(calls[i].stage, n)
  }

  predicate Harmless(stage: Stage, n: int) {
    stage != Won && stage != Failed && (stage.Stored? ==> stage.num == n)
  }

  lemma {:induction false} ExclusiveIsUndisturbed(s: State, u: string, n: int)
    requires Exclusive(s.slots, s.calls, u) && OnRecord(s, u, n)
    ensures Undisturbed(s.calls, u, n)
  {
    forall i | 0 <= i < |s.calls| && s.calls[i].uuid == u ensures Harmless(s.calls[i].stage, n) {
      WorkersAt(s.calls, i, s.calls[i], u);
    }
  }

  lemma {:induction false} StepKeepsUndisturbed(s: State, st: Step, u: string, n: int)
    requires Enabled(s, st) && OnRecord(s, u, n) && Undisturbed(s.calls, u, n)
    ensures Undisturbed(Taken(s, st).calls, u, n)
  {
    var s' := Taken(s, st);
    match st
    case Begin(_, _) =>
    case Expire(_) =>
    case Claim(id, _) => MoveKeepsUndisturbed(s, s', id, u, n);
    case Persist(id, _) => MoveKeepsUndisturbed(s, s', id, u, n);
    case Record(id, _) => MoveKeepsUndisturbed(s, s', id, u, n);
    case Release(id, _) => MoveKeepsUndisturbed(s, s', id, u, n);
    case Crash(id) => MoveKeepsUndisturbed(s, s', id, u, n);
  }

  lemma {:induction false} MoveKeepsUndisturbed(s: State, s': State, id: nat, u: string, n: int)
    requires id < |s.calls| && Undisturbed(s.calls, u, n)
    requires |s'.calls| == |s.calls| && s'.calls == s.calls[id := s'.calls[id]]
    requires s'.calls[id].uuid == u ==> Harmless(s'.calls[id].stage, n)
    ensures Undisturbed(s'.calls, u, n)
  {
  }

  /** So the record and the message's place in the log stay as they are. */
  lemma {:induction false} StepKeepsRecord(s: State, st: Step, u: string, n: int)
    requires Enabled(s, st) && st != Expire(u) && OnRecord(s, u, n) && Undisturbed(s.calls, u, n)
    ensures OnRecord(Taken(s, st), u, n) && Sequenced(Taken(s, st).log, u) == Sequenced(s.log, u)
  {
    match st
    case Persist(id, _) =>
      assert s.calls[id].uuid != u;
      CommitIsSequenced(s, s.calls[id], u);
      PersistKeepsSlots(s, st);
    case _ =>
  }

  lemma {:induction false} PersistKeepsSlots(s: State, st: Step)
    requires Enabled(s, st) && st.Persist?
    ensures Taken(s, st).slots == s.slots
    ensures Taken(s, st).log == (if st.outcome == NotCommitted then s.log else Commit(s, s.calls[st.id]).log)
  {
  }

  lemma {:induction false} RunKeepsExclusive(s: State, steps: seq<Step>, u: string)
    requires Legal(s, steps) && NoExpiry(steps, u) && Exclusive(s.slots, s.calls, u)
    ensures Exclusive(Run(s, steps).slots, Run(s, steps).calls, u)
    decreases |steps|
  {
    if steps != [] {
      StepKeepsExclusive(s, steps[0], u);
      assert forall i :: 0 <= i < |steps[1..]| ==> steps[1..][i] == steps[i + 1];
      RunKeepsExclusive(Taken(s, steps[0]), steps[1..], u);
    }
  }

  lemma {:induction false} RecordIsKept(s: State, steps: seq<Step>, u: string, n: int)
    requires Legal(s, steps) && NoExpiry(steps, u) && OnRecord(s, u, n) && Undisturbed(s.calls, u, n)
    ensures OnRecord(Run(s, steps), u, n) && Sequenced(Run(s, steps).log, u) == Sequenced(s.log, u)
    decreases |steps|
  {
    if steps != [] {
      StepKeepsUndisturbed(s, steps[0], u, n);
      StepKeepsRecord(s, steps[0], u, n);
      assert forall i :: 0 <= i < |steps[1..]| ==> steps[1..][i] == steps[i + 1];
      RecordIsKept(Taken(s, steps[0]), steps[1..], u, n);
    }
  }

  /** From any state, a record lasts on every continuation without an expiry if and only if no other call of the
      message, left over from an earlier expiry, can still give the claim back or record another number. */
  lemma {:induction false} RecordLastsExactly(s: State, u: string, n: int)
    requires OnRecord(s, u, n)
    ensures (forall steps :: Legal(s, steps) && NoExpiry(steps, u) ==> OnRecord(Run(s, steps), u, n))
       <==> Undisturbed(s.calls, u, n)
  {
    if Undisturbed(s.calls, u, n) {
      forall steps | Legal(s, steps) && NoExpiry(steps, u) ensures OnRecord(Run(s, steps), u, n) {
        RecordIsKept(s, steps, u, n);
      }
    } else {
      var steps := Disturb(s, u, n);
      assert Legal(s, steps) && NoExpiry(steps, u) && !OnRecord(Run(s, steps), u, n);
    }
  }

  lemma {:induction false} Disturb(s: State, u: string, n: int) returns (steps: seq<Step>)
    requires OnRecord(s, u, n) && !Undisturbed(s.calls, u, n)
    ensures Legal(s, steps) && NoExpiry(steps, u) && !OnRecord(Run(s, steps), u, n)
  {
    var id :| 0 <= id < |s.calls| && s.calls[id].uuid == u && !Harmless(s.calls[id].stage, n);
    if s.calls[id].stage.Stored? {
      steps := [Record(id, Answered)];
      Run1(s, Record(id, Answered));
    } else if s.calls[id].stage == Failed {
      steps := [Release(id, Answered)];
      Run1(s, Release(id, Answered));
    } else {
      var s1 := Taken(s, Persist(id, NotCommitted));
      Run1(s, Persist(id, NotCommitted));
      Run1(s1, Release(id, Answered));
      RunAppend(s, [Persist(id, NotCommitted)], [Release(id, Answered)]);
      steps := [Persist(id, NotCommitted)] + [Release(id, Answered)];
    }
  }

  /** Such a call is left over when a claim expires under it and a retry is accepted meanwhile. */
  lemma {:induction false} LeftoverReachable(u: string) returns (steps: seq<Step>)
    ensures Legal(INITIAL, steps)
    ensures OnRecord(Run(INITIAL, steps), u, 1) && !Undisturbed(Run(INITIAL, steps).calls, u, 1)
  {
    var first := [Begin(u, "c"), Claim(0, Answered), Expire(u)];
    var s1, s2 := Taken(INITIAL, first[0]), Claimed(INITIAL, u);
    ClaimedAnew(INITIAL, u);
    RunThree(INITIAL, s1, s2, first[0], first[1], first[2]);
    var s3 := Taken(s2, Expire(u));
    ClaimedAnew(s3, u);
    var s4, s5 := Taken(s3, Begin(u, "c")), Claimed(s3, u);
    var next := [Begin(u, "c"), Claim(1, Answered), Persist(1, Committed)];
    RunThree(s3, s4, s5, next[0], next[1], next[2]);
    RunAppend(INITIAL, first, next);
    var s6 := Taken(s5, Persist(1, Committed));
    LeftoverAt(s5, u);
    Run1(s6, Record(1, Answered));
    RunAppend(INITIAL, first + next, [Record(1, Answered)]);
    steps := first + next + [Record(1, Answered)];
  }

  lemma {:induction false} LeftoverAt(s: State, u: string)
    requires s.calls == [Call(u, "c", Won), Call(u, "c", Won)] && LastSeq(s, "c") == 0
    ensures
      var s1 := Taken(s, Persist(1, Committed));
      Enabled(s1, Record(1, Answered)) && OnRecord(Taken(s1, Record(1, Answered)), u, 1)
      && !Undisturbed(Taken(s1, Record(1, Answered)).calls, u, 1)
  {
    var s2 := Taken(Taken(s, Persist(1, Committed)), Record(1, Answered));
    assert s2.calls[0] == Call(u, "c", Won);
  }

  /** Idempotence for the caller: on every run without an expiry of `u`, once its number `n` is on record it
      stays there, nothing sequences `u` again, and every later claim of `u` that is answered ends its call
      with exactly `n`, leaving the log alone. */
  lemma {:induction false} RetryIsAcked(before: seq<Step>, after: seq<Step>, u: string, n: int, id: nat)
    requires Legal(INITIAL, before) && Legal(Run(INITIAL, before), after)
    requires NoExpiry(before, u) && NoExpiry(after, u)
    requires OnRecord(Run(INITIAL, before), u, n)
    ensures
      var s, t := Run(INITIAL, before), Run(Run(INITIAL, before), after);
      && OnRecord(t, u, n) && Sequenced(t.log, u) == Sequenced(s.log, u)
      && (Enabled(t, Claim(id, Answered)) && t.calls[id].uuid == u ==>
            var t' := Taken(t, Claim(id, Answered));
            t'.calls[id].stage == Acked(n) && t'.log == t.log && t'.slots == t.slots)
  {
    RunKeepsExclusive(INITIAL, before, u);
    ExclusiveIsUndisturbed(Run(INITIAL, before), u, n);
    RecordIsKept(Run(INITIAL, before), after, u, n);
  }

  /** An ack is final: nothing that happens later takes it back or changes it. */
  lemma {:induction false} AckIsFinal(s: State, steps: seq<Step>, id: nat, n: int)
    requires Legal(s, steps) && id < |s.calls| && s.calls[id].stage == Acked(n)
    ensures id < |Run(s, steps).calls| && Run(s, steps).calls[id] == s.calls[id]
    decreases |steps|
  {
    if steps != [] { AckIsFinal(Taken(s, steps[0]), steps[1..], id, n); }
  }

  /** Why a call may end without an ack: its claim was not answered or found another call at work, the store
      failed it, or its caller crashed. */
  predicate Excuse(s: State, st: Step, id: nat) {
    || (st.Claim? && st.id == id && id < |s.calls|
        && (st.port != Answered || (s.calls[id].uuid in s.slots && s.slots[s.calls[id].uuid].Pending?)))
    || (st.Persist? && st.id == id && st.outcome != Committed)
    || st == Crash(id)
  }

  ghost predicate Excused(s: State, steps: seq<Step>, id: nat)
    requires Legal(s, steps)
    decreases |steps|
  {
    steps != [] && (Excuse(s, steps[0], id) || Excused(Taken(s, steps[0]), steps[1..], id))
  }

  /** On every run a call that was not already turned down is turned down only with an excuse. */
  lemma {:induction false} RejectedOnlyWithExcuse(s: State, steps: seq<Step>, id: nat)
    requires Legal(s, steps)
    requires id < |s.calls| ==> s.calls[id].stage != Rejected && s.calls[id].stage != Failed
    ensures id < |Run(s, steps).calls| && (Run(s, steps).calls[id].stage == Rejected || Run(s, steps).calls[id].stage == Failed)
        ==> Excused(s, steps, id)
    decreases |steps|
  {
    if steps != [] {
      var s' := Taken(s, steps[0]);
      if id < |s'.calls| && (s'.calls[id].stage == Rejected || s'.calls[id].stage == Failed) {
        assert Excuse(s, steps[0], id);
      } else {
        RejectedOnlyWithExcuse(s', steps[1..], id);
      }
    }
  }

  /** And with every port answering, a message that is not on record is sequenced with the conversation's next
      number, acknowledged with it and put on record. */
  lemma {:induction false} AcceptSucceeds(s: State, id: nat)
    requires id < |s.calls| && s.calls[id].stage == Start && s.calls[id].uuid !in s.slots
    ensures
      var c, n := s.calls[id], LastSeq(s, s.calls[id].conv) + 1;
      var s1 := Taken(s, Claim(id, Answered));
      var s2 := if Enabled(s1, Persist(id, Committed)) then Taken(s1, Persist(id, Committed)) else s1;
      && Enabled(s1, Persist(id, Committed)) && Enabled(s2, Record(id, Answered))
      && var s3 := Taken(s2, Record(id, Answered));
         s3.calls[id].stage == Acked(n) && s3.slots == s.slots[c.uuid := Done(n)] && s3.log == s.log + [Entry(c.uuid, c.conv, n)]
  {
  }

  /** What a port's failing means. A call that never ran changes nothing, one whose answer is lost has taken
      effect all the same; the caller of a claim is told so only by an answer, while a stored message is
      acknowledged and a failed one turned down whatever becomes of the record. */
  lemma {:induction false} PortsMean(s: State, id: nat, port: Port)
    ensures Enabled(s, Claim(id, port)) ==>
      && Taken(s, Claim(id, NeverRan)).slots == s.slots && Taken(s, Claim(id, NeverRan)).calls[id].stage == Rejected
      && Taken(s, Claim(id, AnswerLost)).slots == Taken(s, Claim(id, Answered)).slots
      && Taken(s, Claim(id, AnswerLost)).calls[id].stage == Rejected
    ensures Enabled(s, Record(id, port)) ==>
      && Taken(s, Record(id, NeverRan)).slots == s.slots
      && Taken(s, Record(id, AnswerLost)).slots == s.slots[s.calls[id].uuid := Done(s.calls[id].stage.num)]
      && Taken(s, Record(id, port)).calls[id].stage == Acked(s.calls[id].stage.num)
    ensures Enabled(s, Release(id, port)) ==>
      && Taken(s, Release(id, NeverRan)).slots == s.slots
      && Taken(s, Release(id, AnswerLost)).slots == s.slots - {s.calls[id].uuid}
      && Taken(s, Release(id, port)).calls[id].stage == Rejected
    ensures Enabled(s, Crash(id)) ==>
      && Taken(s, Crash(id)).slots == s.slots && Taken(s, Crash(id)).log == s.log
      && (Taken(s, Crash(id)).calls[id].stage == Rejected || s.calls[id].stage.Acked?)
  {
  }
}
