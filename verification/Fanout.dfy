/** The group fan-out worker: expand, batch-insert, publish as each batch commits. */
module Fanout {
  import opened Ports

  const BATCH_SIZE: nat := 500

  datatype Job = Job(conv: string, num: int, uuid: string, senderDevice: string)

  /** One inbox row. */
  datatype Row = Row(device: string, job: Job)

  /** The table's key: a conflicting insert leaves the row that is there. */
  datatype Key = Key(device: string, uuid: string)

  function KeyOf(r: Row): Key {
    Key(r.device, r.job.uuid)
  }

  datatype Effect = Inserted(rows: seq<Row>) | Published(row: Row)

  /** The rows of a job: one per listed device except the sending one, in list order. */
  function Targets(job: Job, devices: seq<string>): seq<Row> {
    if devices == [] then []
    else Targets(job, devices[..|devices| - 1])
         + if devices[|devices| - 1] == job.senderDevice then [] else [Row(devices[|devices| - 1], job)]
  }

  // -------------------------------------------------------------- the table

  function Copies(table: seq<Row>, k: Key): nat {
    if table == [] then 0
    else Copies(table[..|table| - 1], k) + if KeyOf(table[|table| - 1]) == k then 1 else 0
  }

  function InsertRow(table: seq<Row>, r: Row): seq<Row> {
    if Copies(table, KeyOf(r)) == 0 then table + [r] else table
  }

  function InsertRows(table: seq<Row>, rows: seq<Row>): seq<Row> {
    if rows == [] then table else InsertRow(InsertRows(table, rows[..|rows| - 1]), rows[|rows| - 1])
  }

  /** How often a key stands in the table after an insert: a new key of the batch once, however often the
      batch repeats it, and every other key as often as before. */
  lemma {:induction false} InsertedCopies(table: seq<Row>, rows: seq<Row>, k: Key)
    ensures Copies(InsertRows(table, rows), k)
         == if Copies(table, k) == 0 && Copies(rows, k) > 0 then 1 else Copies(table, k)
    ensures table <= InsertRows(table, rows)
    decreases |rows|
  {
    if rows != [] {
      var init, r := rows[..|rows| - 1], rows[|rows| - 1];
      var t := InsertRows(table, init);
      InsertedCopies(table, init, k);
      assert (t + [r])[..|t|] == t;
    }
  }

  lemma {:induction false} InsertRowsAppend(table: seq<Row>, a: seq<Row>, b: seq<Row>)
    ensures InsertRows(table, a + b) == InsertRows(InsertRows(table, a), b)
    decreases |b|
  {
    if b == [] {
      assert a + b == a;
    } else {
      assert (a + b)[..|a + b| - 1] == a + b[..|b| - 1];
      InsertRowsAppend(table, a, b[..|b| - 1]);
    }
  }

  /** How one run of the worker goes: `good` batches insert, then one errs (if any is left), having
      taken effect or not. */
  datatype Attempt = Attempt(good: nat, applied: bool)

  function Done(rows: seq<Row>, a: Attempt): nat {
    if BATCH_SIZE * a.good >= |rows| then |rows| else BATCH_SIZE * a.good
  }

  /** The rows the run inserts. */
  function Stored(rows: seq<Row>, a: Attempt): seq<Row> {
    var n := Done(rows, a);
    if a.applied && n < |rows| then rows[..BatchEnd(rows, n)] else rows[..n]
  }

  function BatchEnd(rows: seq<Row>, start: nat): (end: nat)
    requires start <= |rows|
    ensures start <= end <= |rows|
  {
    if start + BATCH_SIZE > |rows| then |rows| else start + BATCH_SIZE
  }

  // -------------------------------------------------------------- the worker

  /** Nothing is announced before its row exists. */
  ghost predicate PublishedAfterInsert(effects: seq<Effect>) {
    forall i :: 0 <= i < |effects| && effects[i].Published? ==> InsertedBefore(effects, i, effects[i].row)
  }

  ghost predicate InsertedBefore(effects: seq<Effect>, i: nat, row: Row) {
    exists j :: 0 <= j < i && j < |effects| && effects[j].Inserted? && row in effects[j].rows
  }

  /** The rows published, in order. */
  function PublishedOf(effects: seq<Effect>): seq<Row> {
    if effects == [] then []
    else PublishedOf(effects[..|effects| - 1])
         + if effects[|effects| - 1].Published? then [effects[|effects| - 1].row] else []
  }

  lemma AppendEffect(effects: seq<Effect>, e: Effect)
    requires PublishedAfterInsert(effects)
    requires e.Published? ==> InsertedBefore(effects, |effects|, e.row)
    ensures PublishedAfterInsert(effects + [e])
    ensures PublishedOf(effects + [e]) == PublishedOf(effects) + if e.Published? then [e.row] else []
    ensures forall row :: InsertedBefore(effects, |effects|, row) ==> InsertedBefore(effects + [e], |effects| + 1, row)
    ensures e.Inserted? ==> forall row :: row in e.rows ==> InsertedBefore(effects + [e], |effects| + 1, row)
  {
    var all := effects + [e];
    forall i, row | 0 <= i <= |effects| && InsertedBefore(effects, i, row)
      ensures InsertedBefore(all, i, row) && InsertedBefore(all, |all|, row)
    {
      var j :| 0 <= j < i && j < |effects| && effects[j].Inserted? && row in effects[j].rows;
      assert all[j] == effects[j];
    }
    assert all[|effects|] == e && all[..|effects|] == effects;
  }

  lemma PrefixPublished(before: seq<Row>, rows: seq<Row>, start: nat, end: nat)
    requires start <= end <= |rows|
    ensures (before + rows[..start]) + rows[start..end] == before + rows[..end]
  {
  }

  class Worker {
    var inbox: seq<Row>
    var effects: seq<Effect>
    var expected: map<string, nat>

    ghost predicate Valid()
      reads this
    {
      PublishedAfterInsert(effects)
    }

    /** Runs one job over the devices its members have, if they could be resolved. Publish errors change
        nothing; the expectation write is best-effort. */
    method Fanout(job: Job, devices: Option<seq<string>>, a: Attempt, expectationOk: bool) returns (n: nat, ok: bool)
      requires Valid()
      modifies this
      ensures Valid()
      ensures devices.None? ==>
        n == 0 && !ok && inbox == old(inbox) && effects == old(effects) && expected == old(expected)
      ensures devices.Some? ==>
        var rows := Targets(job, devices.value);
        && n == Done(rows, a) && (ok <==> n == |rows|)
        && inbox == InsertRows(old(inbox), Stored(rows, a))
        && PublishedOf(effects) == PublishedOf(old(effects)) + rows[..n]
        && expected == (if rows != [] && expectationOk then old(expected)[job.uuid := |rows|] else old(expected))
    {
      if devices.None? { return 0, false; }
      var rows := BuildRows(job, devices.value);
      if |rows| > 0 && expectationOk {
        expected := expected[job.uuid := |rows|];
      }
      n, ok := InsertBatches(rows, a);
    }

    method BuildRows(job: Job, devices: seq<string>) returns (rows: seq<Row>)
      ensures rows == Targets(job, devices)
    {
      rows := [];
      for i := 0 to |devices|
        invariant rows == Targets(job, devices[..i])
      {
        assert devices[..i + 1][..i] == devices[..i];
        if devices[i] != job.senderDevice {
          rows := rows + [Row(devices[i], job)];
        }
      }
      assert devices[..|devices|] == devices;
    }

    method InsertBatches(rows: seq<Row>, a: Attempt) returns (n: nat, ok: bool)
      requires Valid()
      modifies this`inbox, this`effects
      ensures Valid()
      ensures n == Done(rows, a) && (ok <==> n == |rows|)
      ensures inbox == InsertRows(old(inbox), Stored(rows, a))
      ensures PublishedOf(effects) == PublishedOf(old(effects)) + rows[..n]
    {
      var start, batches := 0, 0;
      while start < |rows|
        invariant start <= |rows| && batches <= a.good
        invariant start == BATCH_SIZE * batches || (start == |rows| && start <= BATCH_SIZE * batches)
        invariant inbox == InsertRows(old(inbox), rows[..start])
        invariant PublishedOf(effects) == PublishedOf(old(effects)) + rows[..start]
        invariant Valid()
      {
        var end := BatchEnd(rows, start);
        var batch := rows[start..end];
        assert rows[..end] == rows[..start] + batch;
        InsertRowsAppend(old(inbox), rows[..start], batch);
        if batches == a.good {
          if a.applied { Insert(batch); }
          return start, false;
        }
        InsertAndPublish(batch);
        PrefixPublished(PublishedOf(old(effects)), rows, start, end);
        start, batches := end, batches + 1;
      }
      assert rows[..|rows|] == rows;
      n, ok := |rows|, true;
    }

    method InsertAndPublish(batch: seq<Row>)
      requires Valid()
      modifies this`inbox, this`effects
      ensures Valid() && inbox == InsertRows(old(inbox), batch)
      ensures PublishedOf(effects) == PublishedOf(old(effects)) + batch
    {
      Insert(batch);
      Publish(batch);
    }

    /** One statement per batch, skipping keys that are there. */
    method Insert(batch: seq<Row>)
      requires Valid()
      modifies this`inbox, this`effects
      ensures Valid()
      ensures inbox == InsertRows(old(inbox), batch)
      ensures PublishedOf(effects) == PublishedOf(old(effects))
      ensures forall row :: row in batch ==> InsertedBefore(effects, |effects|, row)
    {
      AppendEffect(effects, Inserted(batch));
      Store(batch);
      effects := effects + [Inserted(batch)];
    }

    method Store(batch: seq<Row>)
      modifies this`inbox
      ensures inbox == InsertRows(old(inbox), batch)
    {
      for i := 0 to |batch|
        invariant inbox == InsertRows(old(inbox), batch[..i])
      {
        assert batch[..i + 1][..i] == batch[..i];
        if Copies(inbox, KeyOf(batch[i])) == 0 {
          inbox := inbox + [batch[i]];
        }
      }
      assert batch[..|batch|] == batch;
    }

    method Publish(batch: seq<Row>)
      requires Valid()
      requires forall row :: row in batch ==> InsertedBefore(effects, |effects|, row)
      modifies this`effects
      ensures Valid()
      ensures PublishedOf(effects) == PublishedOf(old(effects)) + batch
    {
      for i := 0 to |batch|
        invariant Valid()
        invariant forall row :: row in batch ==> InsertedBefore(effects, |effects|, row)
        invariant PublishedOf(effects) == PublishedOf(old(effects)) + batch[..i]
      {
        AppendEffect(effects, Published(batch[i]));
        effects := effects + [Published(batch[i])];
        assert batch[..i + 1] == batch[..i] + [batch[i]];
      }
      assert batch[..|batch|] == batch;
    }
  }

  // ------------------------------------------------------------ redeliveries

  /** The table after a job ran once per attempt. */
  function After(table: seq<Row>, rows: seq<Row>, attempts: seq<Attempt>): seq<Row>
    decreases |attempts|
  {
    if attempts == [] then table
    else After(InsertRows(table, Stored(rows, attempts[0])), rows, attempts[1..])
  }

  /** Some attempt inserted `k`. */
  ghost predicate Tried(rows: seq<Row>, attempts: seq<Attempt>, k: Key) {
    exists i :: 0 <= i < |attempts| && Copies(Stored(rows, attempts[i]), k) > 0
  }

  ghost predicate SomeClean(rows: seq<Row>, attempts: seq<Attempt>) {
    exists i :: 0 <= i < |attempts| && Done(rows, attempts[i]) == |rows|
  }

  lemma {:induction false} TargetsMean(job: Job, devices: seq<string>)
    ensures forall r :: r in Targets(job, devices) <==>
      r.job == job && r.device in devices && r.device != job.senderDevice
  {
    if devices != [] {
      TargetsMean(job, devices[..|devices| - 1]);
      assert devices == devices[..|devices| - 1] + [devices[|devices| - 1]];
    }
  }

  lemma {:induction false} CopiesMember(rows: seq<Row>, k: Key)
    ensures Copies(rows, k) > 0 <==> exists r :: r in rows && KeyOf(r) == k
    decreases |rows|
  {
    if rows != [] {
      var init, last := rows[..|rows| - 1], rows[|rows| - 1];
      CopiesMember(init, k);
      assert rows == init + [last];
      if r :| r in rows && KeyOf(r) == k {
        assert r in init || r == last;
      }
      if Copies(rows, k) > 0 {
        if KeyOf(last) != k {
          var r :| r in init && KeyOf(r) == k;
          assert r in rows;
        } else {
          assert last in rows;
        }
      }
    }
  }

  /** The exact count after any attempts: a key that was not there stands once if some attempt got as far
      as inserting it, and every other key stands as often as before. */
  lemma {:induction false} RetriedCopies(table: seq<Row>, rows: seq<Row>, attempts: seq<Attempt>, k: Key)
    ensures Copies(After(table, rows, attempts), k)
         == if Copies(table, k) == 0 && Tried(rows, attempts, k) then 1 else Copies(table, k)
    ensures table <= After(table, rows, attempts)
    decreases |attempts|
  {
    if attempts != [] {
      var stored, rest := Stored(rows, attempts[0]), attempts[1..];
      InsertedCopies(table, stored, k);
      RetriedCopies(InsertRows(table, stored), rows, rest, k);
      if i :| 0 <= i < |attempts| && Copies(Stored(rows, attempts[i]), k) > 0 {
        if i > 0 { assert rest[i - 1] == attempts[i]; }
      }
      if Tried(rows, rest, k) {
        var i :| 0 <= i < |rest| && Copies(Stored(rows, rest[i]), k) > 0;
        assert attempts[i + 1] == rest[i];
      }
    }
  }

  /** Whatever batches fail and however often the job is redelivered, for a message not in the table
      before: at most one row for a device, none for the sender or an unlisted device, exactly one for
      every other device from the first clean run on, and nothing else in the table changes. */
  lemma RetriesConverge(table: seq<Row>, job: Job, devices: seq<string>, attempts: seq<Attempt>, k: Key)
    ensures
      var rows := Targets(job, devices);
      var got := After(table, rows, attempts);
      && table <= got
      && (k.uuid != job.uuid ==> Copies(got, k) == Copies(table, k))
      && (k.uuid == job.uuid && Copies(table, k) == 0 ==>
            && Copies(got, k) <= 1
            && (k.device !in devices || k.device == job.senderDevice ==> Copies(got, k) == 0)
            && (k.device in devices && k.device != job.senderDevice && SomeClean(rows, attempts) ==> Copies(got, k) == 1))
  {
    var rows := Targets(job, devices);
    RetriedCopies(table, rows, attempts, k);
    TriedIsTarget(job, devices, attempts, k);
    CleanTriesAll(job, devices, attempts, k);
  }

  predicate IsTarget(job: Job, devices: seq<string>, k: Key) {
    k.uuid == job.uuid && k.device in devices && k.device != job.senderDevice
  }

  lemma TriedIsTarget(job: Job, devices: seq<string>, attempts: seq<Attempt>, k: Key)
    ensures Tried(Targets(job, devices), attempts, k) ==> IsTarget(job, devices, k)
  {
    var rows := Targets(job, devices);
    TargetsMean(job, devices);
    if i :| 0 <= i < |attempts| && Copies(Stored(rows, attempts[i]), k) > 0 {
      var stored := Stored(rows, attempts[i]);
      CopiesMember(stored, k);
      var r :| r in stored && KeyOf(r) == k;
      assert r in rows;
    }
  }

  lemma CleanTriesAll(job: Job, devices: seq<string>, attempts: seq<Attempt>, k: Key)
    ensures IsTarget(job, devices, k) && SomeClean(Targets(job, devices), attempts)
        ==> Tried(Targets(job, devices), attempts, k)
  {
    var rows := Targets(job, devices);
    if i :| IsTarget(job, devices, k) && 0 <= i < |attempts| && Done(rows, attempts[i]) == |rows| {
      assert Stored(rows, attempts[i]) == rows;
      TargetsMean(job, devices);
      assert Row(k.device, job) in rows;
      CopiesMember(rows, k);
    }
  }

  function Least(a: int, b: int): int {
    if a <= b then a else b
  }

  /** What a run reports and stores, in numbers: `good` batches of 500, cut off at the end of the rows, are counted
      and stored, and a failing batch that took effect stores the next 500. */
  lemma RunInNumbers(rows: seq<Row>, a: Attempt)
    ensures Done(rows, a) == Least(500 * a.good, |rows|)
    ensures Stored(rows, a) == rows[..Least(500 * (if a.applied then a.good + 1 else a.good), |rows|)]
    ensures forall start: nat :: start <= |rows| ==> BatchEnd(rows, start) == Least(start + 500, |rows|)
  {
  }

  /** An aborted run reports the rows it is sure of: those before the failed batch, all stored. */
  lemma AbortedCountIsStored(rows: seq<Row>, a: Attempt)
    requires Done(rows, a) < |rows|
    ensures Done(rows, a) == BATCH_SIZE * a.good && Done(rows, a) % 500 == 0
    ensures rows[..Done(rows, a)] <= Stored(rows, a)
    ensures Stored(rows, a) == rows[..Done(rows, a)] <==> !a.applied
  {
  }
}
