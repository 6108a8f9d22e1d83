/** The aggregate tick: one per (message, kind), when the last target device has reached it. */
module Aggregate {
  import opened Ports
  import Fanout

  /** A receipt: what the counting store answers, and whether the tick, if this raises it, is emitted. */
  datatype Receipt = Receipt(device: string, port: Port, emitted: bool)

  class AggregateReceipts {
    var expected: map<string, nat>
    var reached: map<(string, int), set<string>>
    var ticks: seq<(string, int)>

    function Devices(key: (string, int)): set<string>
      reads this
    {
      if key in reached then reached[key] else {}
    }

    function Expected(uuid: string): nat
      reads this
    {
      if uuid in expected then expected[uuid] else 0
    }

    method OnDeviceReceipt(uuid: string, kind: int, r: Receipt) returns (ok: bool)
      modifies this`reached, this`ticks
      ensures ok <==> r.port == Answered && (Ticks(old(Devices((uuid, kind))), Expected(uuid), r) ==> r.emitted)
      ensures Devices((uuid, kind)) == Recorded(old(Devices((uuid, kind))), r)
      ensures reached - {(uuid, kind)} == old(reached) - {(uuid, kind)}
      ensures ticks == old(ticks) +
        (if Ticks(old(Devices((uuid, kind))), Expected(uuid), r) then [(uuid, kind)] else [])
    {
      var key := (uuid, kind);
      if r.port == NeverRan {
        return false;
      }
      var was := Devices(key);
      var now := was + {r.device};
      reached := reached[key := now];
      if r.port == AnswerLost {
        return false;
      }
      var added := r.device !in was;
      if added && Expected(uuid) > 0 && |now| == Expected(uuid) {
        ticks := ticks + [key];
        return r.emitted;
      }
      return true;
    }
  }

  function Recorded(devices: set<string>, r: Receipt): set<string> {
    if r.port == NeverRan then devices else devices + {r.device}
  }

  predicate Ticks(devices: set<string>, expected: nat, r: Receipt) {
    && r.port == Answered && r.device !in devices
    && expected > 0 && |devices + {r.device}| == expected
  }

  /** All receipts of one (message, kind): how many ticks they raise. */
  function TickCount(devices: set<string>, expected: nat, rs: seq<Receipt>): nat
    decreases |rs|
  {
    if rs == [] then 0
    else (if Ticks(devices, expected, rs[0]) then 1 else 0) + TickCount(Recorded(devices, rs[0]), expected, rs[1..])
  }

  function ReachedBy(devices: set<string>, rs: seq<Receipt>): set<string>
    decreases |rs|
  {
    if rs == [] then devices else ReachedBy(Recorded(devices, rs[0]), rs[1..])
  }

  /** The receipt that brings the count up to the expectation lost its answer. */
  ghost predicate CompletionLost(devices: set<string>, expected: nat, rs: seq<Receipt>)
    decreases |rs|
  {
    rs != [] &&
    if |Recorded(devices, rs[0])| == expected && |devices| < expected then rs[0].port == AnswerLost
    else CompletionLost(Recorded(devices, rs[0]), expected, rs[1..])
  }

  lemma {:induction false} ReachedGrows(devices: set<string>, rs: seq<Receipt>)
    ensures devices <= ReachedBy(devices, rs)
    decreases |rs|
  {
    if rs != [] { ReachedGrows(Recorded(devices, rs[0]), rs[1..]); }
  }

  lemma SubsetSize(a: set<string>, b: set<string>)
    requires a <= b
    ensures |a| <= |b|
    ensures |a| == |b| ==> a == b
  {
    var rest := b - a;
    assert b == a + rest && a !! rest;
    assert |b| == |a| + |rest|;
  }

  /** Once complete, never again. */
  lemma {:induction false} NoSecondTick(devices: set<string>, expected: nat, rs: seq<Receipt>)
    requires |devices| >= expected
    ensures TickCount(devices, expected, rs) == 0 && !CompletionLost(devices, expected, rs)
    decreases |rs|
  {
    if rs != [] {
      var next := Recorded(devices, rs[0]);
      SubsetSize(devices, next);
      NoSecondTick(next, expected, rs[1..]);
    }
  }

  /** For a fixed expectation, any sequence of receipts with duplicates and failures raises exactly
      one tick if enough distinct devices reached it, and none otherwise; the only way to miss it is
      a lost answer on the completing receipt. */
  lemma {:induction false} TickExactlyOnce(devices: set<string>, expected: nat, rs: seq<Receipt>)
    requires |devices| < expected
    ensures TickCount(devices, expected, rs) ==
      if |ReachedBy(devices, rs)| >= expected && !CompletionLost(devices, expected, rs) then 1 else 0
    decreases |rs|
  {
    if rs != [] {
      var next := Recorded(devices, rs[0]);
      SubsetSize(devices, next);
      assert |next| <= |devices| + 1;
      if |next| >= expected {
        NoSecondTick(next, expected, rs[1..]);
        ReachedGrows(next, rs[1..]);
        SubsetSize(next, ReachedBy(next, rs[1..]));
        assert rs[0].device !in devices;
      } else {
        TickExactlyOnce(next, expected, rs[1..]);
      }
    }
  }

  // -------------------------------------------- with the worker's expectation

  function DevicesOf(rows: seq<Fanout.Row>): set<string> {
    set r | r in rows :: r.device
  }

  ghost predicate NoDeviceTwice(rows: seq<Fanout.Row>) {
    forall i, j :: 0 <= i < j < |rows| ==> rows[i].device != rows[j].device
  }

  lemma DevicesSnoc(init: seq<Fanout.Row>, r: Fanout.Row)
    ensures DevicesOf(init + [r]) == DevicesOf(init) + {r.device}
    ensures NoDeviceTwice(init + [r]) <==> NoDeviceTwice(init) && r.device !in DevicesOf(init)
  {
    var rows := init + [r];
    assert r in rows && forall q :: q in rows <==> q in init || q == r;
    assert rows[|init|] == r;
    if NoDeviceTwice(rows) {
      forall i, j | 0 <= i < j < |init| ensures init[i].device != init[j].device {
        assert rows[i] == init[i] && rows[j] == init[j];
      }
      forall q | q in init ensures q.device != r.device {
        var i :| 0 <= i < |init| && init[i] == q;
        assert rows[i] == q;
      }
    } else if NoDeviceTwice(init) {
      var i, j :| 0 <= i < j < |rows| && rows[i].device == rows[j].device;
      assert j == |init| && init[i] in init;
    }
  }

  lemma {:induction false} DevicesCounted(rows: seq<Fanout.Row>)
    ensures |DevicesOf(rows)| <= |rows|
    ensures |DevicesOf(rows)| == |rows| <==> NoDeviceTwice(rows)
  {
    if rows != [] {
      var init, r := rows[..|rows| - 1], rows[|rows| - 1];
      DevicesCounted(init);
      assert rows == init + [r];
      DevicesSnoc(init, r);
    }
  }

  /** The devices recorded when the count first comes up to the expectation. */
  function AtCompletion(devices: set<string>, expected: nat, rs: seq<Receipt>): set<string>
    decreases |rs|
  {
    if rs == [] || |devices| >= expected then devices else AtCompletion(Recorded(devices, rs[0]), expected, rs[1..])
  }

  lemma {:induction false} CompletesExactly(devices: set<string>, expected: nat, rs: seq<Receipt>)
    requires |devices| <= expected
    ensures AtCompletion(devices, expected, rs) <= ReachedBy(devices, rs)
    ensures |ReachedBy(devices, rs)| >= expected ==> |AtCompletion(devices, expected, rs)| == expected
    decreases |rs|
  {
    if |devices| == expected {
      ReachedGrows(devices, rs);
    } else if rs != [] {
      var next := Recorded(devices, rs[0]);
      assert |next| <= |devices| + 1;
      CompletesExactly(next, expected, rs[1..]);
    }
  }

  /** What the tick means, with the worker's expectation (its row count) and receipts from any device at
      all. It comes once if that many devices are recorded and the completing answer is not lost. It means
      that every target has reached the state exactly if the strangers recorded by then are as many as the
      repeated entries of the device list: with no device listed twice, if and only if there is no stranger. */
  lemma TickMeansAllReached(job: Fanout.Job, devices: seq<string>, rs: seq<Receipt>)
    requires Fanout.Targets(job, devices) != []
    ensures
      var rows := Fanout.Targets(job, devices);
      TickCount({}, |rows|, rs) == if |ReachedBy({}, rs)| >= |rows| && !CompletionLost({}, |rows|, rs) then 1 else 0
    ensures
      var rows := Fanout.Targets(job, devices);
      var recorded, targets := AtCompletion({}, |rows|, rs), DevicesOf(rows);
      TickCount({}, |rows|, rs) == 1 ==> (targets <= recorded <==> |recorded - targets| == |rows| - |targets|)
    ensures
      var rows := Fanout.Targets(job, devices);
      var recorded, targets := AtCompletion({}, |rows|, rs), DevicesOf(rows);
      TickCount({}, |rows|, rs) == 1 && NoDeviceTwice(rows) ==> (targets <= recorded <==> recorded <= targets)
  {
    var rows := Fanout.Targets(job, devices);
    var recorded, targets := AtCompletion({}, |rows|, rs), DevicesOf(rows);
    DevicesCounted(rows);
    TickExactlyOnce({}, |rows|, rs);
    CompletesExactly({}, |rows|, rs);
    if |ReachedBy({}, rs)| >= |rows| { StrangersCounted(recorded, targets, |rows|); }
  }

  lemma StrangersCounted(recorded: set<string>, targets: set<string>, n: nat)
    requires |recorded| == n && |targets| <= n
    ensures targets <= recorded <==> |recorded - targets| == n - |targets|
    ensures |targets| == n ==> (targets <= recorded <==> recorded <= targets)
  {
    var both := recorded * targets;
    assert recorded == both + (recorded - targets) && both !! (recorded - targets);
    assert |recorded| == |both| + |recorded - targets|;
    SubsetSize(both, targets);
    if targets <= recorded { assert both == targets; }
    if |both| == |targets| { assert both == targets; }
    if recorded <= targets { assert recorded - targets == {}; }
    if |recorded - targets| == 0 { assert recorded - targets == {}; }
  }

  /** While only targets report, a repeated entry means the tick never comes. */
  lemma RepeatedTargetNeverTicks(job: Fanout.Job, devices: seq<string>, rs: seq<Receipt>)
    requires
      var rows := Fanout.Targets(job, devices);
      rows != [] && !NoDeviceTwice(rows) && ReachedBy({}, rs) <= DevicesOf(rows)
    ensures TickCount({}, |Fanout.Targets(job, devices)|, rs) == 0
  {
    var rows := Fanout.Targets(job, devices);
    DevicesCounted(rows);
    SubsetSize(ReachedBy({}, rs), DevicesOf(rows));
    TickExactlyOnce({}, |rows|, rs);
  }

  /** A receipt from a device that is no target completes the count in a target's place. */
  lemma StrangerTicksEarly(job: Fanout.Job, a: string, b: string, x: string)
    requires a != b && a != x && b != x && job.senderDevice != a && job.senderDevice != b
    ensures
      var rows := Fanout.Targets(job, [a, b]);
      var rs := [Receipt(a, Answered, true), Receipt(x, Answered, true)];
      TickCount({}, |rows|, rs) == 1 && b in DevicesOf(rows) && b !in ReachedBy({}, rs)
  {
    var rows := Fanout.Targets(job, [a, b]);
    assert [a, b][..1] == [a] && [a][..0] == [];
    assert Fanout.Targets(job, [a]) == [Fanout.Row(a, job)];
    assert rows == [Fanout.Row(a, job), Fanout.Row(b, job)];
    assert rows[1] in rows;
    var r0, r1 := Receipt(a, Answered, true), Receipt(x, Answered, true);
    var rs := [r0, r1];
    assert rs[1..] == [r1] && [r1][1..] == [];
    assert Recorded({}, r0) == {a} && Recorded({a}, r1) == {a, x};
    assert ReachedBy({a, x}, []) == {a, x} && ReachedBy({a}, [r1]) == {a, x} && ReachedBy({}, rs) == {a, x};
    assert |{} + {a}| == 1 && |{a} + {x}| == 2;
    assert TickCount({a, x}, 2, []) == 0 && TickCount({a}, 2, [r1]) == 1;
  }
}
