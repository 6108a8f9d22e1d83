/** The two receipt coalescers: cumulative receipts collapse to the highest sequence number per
    conversation and kind between drains. */
module Coalesce {

  datatype Key = Key(conv: string, kind: int)

  datatype Receipt = Receipt(key: Key, upTo: int)

  /** The wire's receipt kinds. */
  const DELIVERED := 1
  const READ := 2

  /** What the gateway lets through. */
  predicate Genuine(k: Key) {
    k.conv != "" && (k.kind == DELIVERED || k.kind == READ)
  }

  function ValueOf(pending: map<Key, int>, k: Key): int {
    if k in pending then pending[k] else 0
  }

  /** A missing entry reads as zero, so only a positive number can raise it. */
  function Raised(pending: map<Key, int>, k: Key, s: int): map<Key, int> {
    if s > ValueOf(pending, k) then pending[k := s] else pending
  }

  function RaisedGenuine(pending: map<Key, int>, k: Key, s: int): map<Key, int> {
    if !Genuine(k) || s <= 0 then pending else Raised(pending, k, s)
  }

  /** `out` lists `pending`, one receipt per key, in some order. */
  ghost predicate Lists(out: seq<Receipt>, pending: map<Key, int>) {
    && |out| == |pending|
    && (forall i :: 0 <= i < |out| ==> out[i].key in pending && out[i].upTo == pending[out[i].key])
    && (forall i, j :: 0 <= i < j < |out| ==> out[i].key != out[j].key)
  }

  method Listed(pending: map<Key, int>) returns (out: seq<Receipt>)
    ensures Lists(out, pending)
    ensures forall k :: k in pending ==> Receipt(k, pending[k]) in out
  {
    out := [];
    var rest := pending.Keys;
    while rest != {}
      invariant rest <= pending.Keys
      invariant |out| + |rest| == |pending|
      invariant forall i :: 0 <= i < |out| ==> out[i].key in pending && out[i].upTo == pending[out[i].key]
      invariant forall i :: 0 <= i < |out| ==> out[i].key !in rest
      invariant forall i, j :: 0 <= i < j < |out| ==> out[i].key != out[j].key
      invariant forall k :: k in pending && k !in rest ==> Receipt(k, pending[k]) in out
      decreases |rest|
    {
      var k :| k in rest;
      out := out + [Receipt(k, pending[k])];
      rest := rest - {k};
    }
  }

  class ChatCoalescer {
    var pending: map<Key, int>

    constructor ()
      ensures pending == map[]
    {
      pending := map[];
    }

    method Submit(conv: string, kind: int, upTo: int)
      modifies this
      ensures pending == Raised(old(pending), Key(conv, kind), upTo)
    {
      var k := Key(conv, kind);
      var current := if k in pending then pending[k] else 0;
      if upTo > current { pending := pending[k := upTo]; }
    }

    method Drain() returns (out: seq<Receipt>)
      modifies this
      ensures pending == map[] && Lists(out, old(pending))
      ensures forall k :: k in old(pending) ==> Receipt(k, old(pending)[k]) in out
    {
      if |pending| == 0 { return []; }
      out := Listed(pending);
      pending := map[];
    }
  }

  class GatewayCoalescer {
    var pending: map<Key, int>

    constructor ()
      ensures pending == map[]
    {
      pending := map[];
    }

    method Submit(conv: string, kind: int, upTo: int)
      modifies this
      ensures pending == RaisedGenuine(old(pending), Key(conv, kind), upTo)
    {
      if conv == "" || upTo <= 0 || (kind != DELIVERED && kind != READ) { return; }
      var k := Key(conv, kind);
      var current := if k in pending then pending[k] else 0;
      if upTo > current { pending := pending[k := upTo]; }
    }

    method Drain() returns (out: seq<Receipt>)
      modifies this
      ensures pending == map[] && Lists(out, old(pending))
      ensures forall k :: k in old(pending) ==> Receipt(k, old(pending)[k]) in out
    {
      if |pending| == 0 { return []; }
      out := Listed(pending);
      pending := map[];
    }
  }

  // ------------------------------------------------------------------ runs

  datatype Op = Submit(key: Key, upTo: int) | Drain

  /** The coalescer after a run, with everything it drained, oldest first. */
  datatype Trace = Trace(pending: map<Key, int>, drained: seq<map<Key, int>>)

  function After(ops: seq<Op>): Trace {
    if ops == [] then Trace(map[], [])
    else
      var t := After(ops[..|ops| - 1]);
      match ops[|ops| - 1]
      case Submit(k, s) => t.(pending := Raised(t.pending, k, s))
      case Drain => Trace(map[], t.drained + [t.pending])
  }

  function AfterGateway(ops: seq<Op>): Trace {
    if ops == [] then Trace(map[], [])
    else
      var t := AfterGateway(ops[..|ops| - 1]);
      match ops[|ops| - 1]
      case Submit(k, s) => t.(pending := RaisedGenuine(t.pending, k, s))
      case Drain => Trace(map[], t.drained + [t.pending])
  }

  function Max(a: int, b: int): int {
    if a >= b then a else b
  }

  /** The highest number submitted for `k`, zero if none is positive. */
  function Submitted(ops: seq<Op>, k: Key): int {
    if ops == [] then 0
    else
      var best := Submitted(ops[..|ops| - 1], k);
      match ops[|ops| - 1]
      case Submit(k', s) => if k' == k then Max(best, s) else best
      case Drain => best
  }

  /** The watermark a reader of the drains reaches who keeps the highest number seen for `k`. */
  function Relayed(drained: seq<map<Key, int>>, k: Key): int {
    if drained == [] then 0 else Max(Relayed(drained[..|drained| - 1], k), ValueOf(drained[|drained| - 1], k))
  }

  lemma {:induction false} PendingPositive(ops: seq<Op>)
    ensures forall k :: k in After(ops).pending ==> After(ops).pending[k] > 0
    decreases |ops|
  {
    if ops != [] { PendingPositive(ops[..|ops| - 1]); }
  }

  /** Over every run of submits and drains nothing is lost and nothing is invented: what was drained
      together with what is pending has exactly the highest number submitted, for every key. */
  lemma {:induction false} Lossless(ops: seq<Op>, k: Key)
    ensures Max(Relayed(After(ops).drained, k), ValueOf(After(ops).pending, k)) == Submitted(ops, k)
    decreases |ops|
  {
    if ops != [] {
      var front := ops[..|ops| - 1];
      Lossless(front, k);
      if ops[|ops| - 1].Drain? {
        var drained := After(ops).drained;
        assert drained[..|drained| - 1] == After(front).drained;
        RelayedNonNegative(drained, k);
      }
    }
  }

  /** In particular a reader is up to date after every drain. */
  lemma DrainCatchesUp(ops: seq<Op>, k: Key)
    ensures Relayed(After(ops + [Drain]).drained, k) == Submitted(ops, k)
  {
    var all := ops + [Drain];
    assert all[..|all| - 1] == ops;
    Lossless(all, k);
    Lossless(ops, k);
    RelayedNonNegative(After(all).drained, k);
  }

  lemma {:induction false} RelayedNonNegative(drained: seq<map<Key, int>>, k: Key)
    ensures Relayed(drained, k) >= 0
    decreases |drained|
  {
    if drained != [] { RelayedNonNegative(drained[..|drained| - 1], k); }
  }

  /** The positive number `s` was submitted for `k` since the last drain. */
  ghost predicate PositiveSince(ops: seq<Op>, k: Key, s: int) {
    ops != [] && !ops[|ops| - 1].Drain?
    && ((ops[|ops| - 1] == Submit(k, s) && s > 0) || PositiveSince(ops[..|ops| - 1], k, s))
  }

  /** A window relays an entry for a key exactly if a positive number was submitted for it in that
      window, and the entry is the highest of those. */
  lemma {:induction false} WindowExactly(ops: seq<Op>, k: Key)
    ensures k in After(ops).pending ==> PositiveSince(ops, k, After(ops).pending[k])
    ensures forall s :: PositiveSince(ops, k, s) ==> k in After(ops).pending && s <= After(ops).pending[k]
    decreases |ops|
  {
    if ops != [] && !ops[|ops| - 1].Drain? {
      var front, op := ops[..|ops| - 1], ops[|ops| - 1];
      var was, now := After(front).pending, After(ops).pending;
      WindowExactly(front, k);
      PendingPositive(front);
      assert now == Raised(was, op.key, op.upTo);
      if k in now { assert PositiveSince(ops, k, now[k]); }
      forall s | PositiveSince(ops, k, s) ensures k in now && s <= now[k] {
        assert op == Submit(k, s) || PositiveSince(front, k, s);
      }
    }
  }

  // ----------------------------------------------------------------- twins

  function OnlyGenuine(pending: map<Key, int>): map<Key, int> {
    map k | k in pending && Genuine(k) :: pending[k]
  }

  lemma GenuineRaise(pending: map<Key, int>, k: Key, s: int)
    requires forall x :: x in pending ==> pending[x] > 0
    ensures RaisedGenuine(OnlyGenuine(pending), k, s) == OnlyGenuine(Raised(pending, k, s))
  {
  }

  /** On any input at all the gateway's coalescer is the chat one with junk keys left out, pending and
      in every drain. */
  lemma {:induction false} GatewayIsChatFiltered(ops: seq<Op>)
    ensures
      var g, c := AfterGateway(ops), After(ops);
      && g.pending == OnlyGenuine(c.pending) && |g.drained| == |c.drained|
      && forall i :: 0 <= i < |g.drained| ==> g.drained[i] == OnlyGenuine(c.drained[i])
    decreases |ops|
  {
    if ops != [] {
      GatewayIsChatFiltered(ops[..|ops| - 1]);
      match ops[|ops| - 1]
      case Submit(k, s) =>
        PendingPositive(ops[..|ops| - 1]);
        GenuineRaise(After(ops[..|ops| - 1]).pending, k, s);
      case Drain =>
    }
  }

  predicate JunkFree(ops: seq<Op>) {
    forall i :: 0 <= i < |ops| && ops[i].Submit? && ops[i].upTo > 0 ==> Genuine(ops[i].key)
  }

  /** So the two agree exactly if every positive number is submitted under a genuine key. */
  lemma TwinsAgree(ops: seq<Op>)
    ensures AfterGateway(ops) == After(ops) <==> JunkFree(ops)
  {
    if JunkFree(ops) {
      JunkFreeAgree(ops);
    } else {
      var i :| 0 <= i < |ops| && ops[i].Submit? && ops[i].upTo > 0 && !Genuine(ops[i].key);
      var k := ops[i].key;
      Lossless(ops, k);
      SubmittedAtLeast(ops, i);
      if AfterGateway(ops) == After(ops) {
        GatewayIsChatFiltered(ops);
        JunkNotRelayed(After(ops).drained, k);
      }
    }
  }

  lemma {:induction false} JunkFreeAgree(ops: seq<Op>)
    requires JunkFree(ops)
    ensures AfterGateway(ops) == After(ops)
    decreases |ops|
  {
    if ops != [] {
      var front := ops[..|ops| - 1];
      assert JunkFree(front) by {
        forall i | 0 <= i < |front| && front[i].Submit? && front[i].upTo > 0 ensures Genuine(front[i].key) {
          assert ops[i] == front[i];
        }
      }
      JunkFreeAgree(front);
      PendingPositive(front);
    }
  }

  lemma {:induction false} SubmittedAtLeast(ops: seq<Op>, i: nat)
    requires i < |ops| && ops[i].Submit?
    ensures Submitted(ops, ops[i].key) >= ops[i].upTo
    decreases |ops|
  {
    if i < |ops| - 1 { SubmittedAtLeast(ops[..|ops| - 1], i); }
  }

  lemma {:induction false} JunkNotRelayed(drained: seq<map<Key, int>>, k: Key)
    requires forall i :: 0 <= i < |drained| ==> k !in drained[i]
    ensures Relayed(drained, k) == 0
    decreases |drained|
  {
    if drained != [] { JunkNotRelayed(drained[..|drained| - 1], k); }
  }
}
