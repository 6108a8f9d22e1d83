/** The push pipeline: Handle's verdicts, the breaker it drives, and how the durable consumer settles. */
module Push {
  import opened B = Breaker

  datatype Outcome = Ack | Nack | Dead

  /** What the token store says about the recipient device. */
  datatype Lookup = NoToken | LookupFailed | Token(hasDriver: bool)

  datatype SendResult = Delivered | TokenInvalid | ProviderFailed

  /** One delivery of a dispatch: what its ports answer, and when the breaker is asked and told. */
  datatype Delivery = Delivery(lookup: Lookup, send: SendResult, askedAt: int, toldAt: int, dlqOk: bool, device: string, deleteOk: bool)

  function RetryOrDead(deliveries: int, maxDeliveries: int): Outcome {
    if deliveries >= maxDeliveries then Dead else Nack
  }

  predicate Reaches(cfg: Config, b: State, d: Delivery) {
    d.lookup == Token(true) && Allows(cfg, b, d.askedAt)
  }

  function Verdict(cfg: Config, b: State, d: Delivery, deliveries: int, maxDeliveries: int): Outcome {
    match d.lookup
    case NoToken => Ack
    case LookupFailed => RetryOrDead(deliveries, maxDeliveries)
    case Token(hasDriver) =>
      if !hasDriver then Ack
      else if !Allows(cfg, b, d.askedAt) then Nack
      else match d.send
        case Delivered => Ack
        case TokenInvalid => Ack
        case ProviderFailed => RetryOrDead(deliveries, maxDeliveries)
  }

  /** The breaker after a delivery: a dead token is neither a success nor a failure. */
  function BreakerAfter(cfg: Config, b: State, d: Delivery): State {
    if d.lookup != Token(true) then b
    else if !Allows(cfg, b, d.askedAt) then b
    else
      var asked := Allowed(cfg, b, d.askedAt);
      match d.send
      case Delivered => Recorded(cfg, asked, d.toldAt, true)
      case TokenInvalid => asked
      case ProviderFailed => Recorded(cfg, asked, d.toldAt, false)
  }

  /** The push tokens after a delivery: a token the provider calls dead is pruned. */
  function TokensAfter(cfg: Config, b: State, tokens: set<string>, d: Delivery): set<string> {
    if Reaches(cfg, b, d) && d.send == TokenInvalid && d.deleteOk then tokens - {d.device} else tokens
  }

  class Service {
    const breaker: B.Breaker
    const maxDeliveries: int
    var tokens: set<string>
    var sends: nat

    constructor (breaker: B.Breaker, maxDeliveries: int, tokens: set<string>)
      ensures this.breaker == breaker && sends == 0 && this.tokens == tokens
      ensures this.maxDeliveries == if maxDeliveries <= 0 then 5 else maxDeliveries
    {
      this.breaker := breaker;
      this.maxDeliveries := if maxDeliveries <= 0 then DEFAULT_THRESHOLD else maxDeliveries;
      this.tokens := tokens;
      sends := 0;
    }

    method Handle(d: Delivery, deliveries: int) returns (v: Outcome)
      modifies this`sends, this`tokens, breaker
      ensures v == Verdict(breaker.cfg, old(breaker.Value()), d, deliveries, maxDeliveries)
      ensures breaker.Value() == BreakerAfter(breaker.cfg, old(breaker.Value()), d)
      ensures tokens == TokensAfter(breaker.cfg, old(breaker.Value()), old(tokens), d)
      ensures sends == old(sends) + if Reaches(breaker.cfg, old(breaker.Value()), d) then 1 else 0
    {
      if d.lookup == NoToken {
        return Ack;
      }
      if d.lookup == LookupFailed {
        return RetryOrDead(deliveries, maxDeliveries);
      }
      if !d.lookup.hasDriver {
        return Ack;
      }
      var ok := breaker.Allow(d.askedAt);
      if !ok {
        return Nack;
      }
      sends := sends + 1;
      match d.send
      case Delivered =>
        breaker.Record(d.toldAt, true);
        return Ack;
      case TokenInvalid =>
        if d.deleteOk { tokens := tokens - {d.device}; }
        return Ack;
      case ProviderFailed =>
        breaker.Record(d.toldAt, false);
        return RetryOrDead(deliveries, maxDeliveries);
    }
  }

  // ------------------------------------------------------- the half-open wedge

  function AfterAll(cfg: Config, b: State, ds: seq<Delivery>): State
    decreases |ds|
  {
    if ds == [] then b else AfterAll(cfg, BreakerAfter(cfg, b, ds[0]), ds[1..])
  }

  /** Deliveries that ever reach the provider. */
  function Sends(cfg: Config, b: State, ds: seq<Delivery>): nat
    decreases |ds|
  {
    if ds == [] then 0
    else (if Reaches(cfg, b, ds[0]) then 1 else 0) + Sends(cfg, BreakerAfter(cfg, b, ds[0]), ds[1..])
  }

  /** A breaker left half-open with no probe outstanding blocks the provider for ever: whatever is
      delivered from then on, nothing is sent and nothing changes. */
  lemma {:induction false} HalfOpenWedges(cfg: Config, b: State, ds: seq<Delivery>)
    requires b.mode == HalfOpen
    ensures AfterAll(cfg, b, ds) == b && Sends(cfg, b, ds) == 0
    decreases |ds|
  {
    if ds != [] { HalfOpenWedges(cfg, b, ds[1..]); }
  }

  /** An admitted probe resolves the breaker unless the token it tried was dead; recovery is
      possible exactly then. */
  lemma ProbeResolvesUnlessTokenDead(cfg: Config, b: State, d: Delivery, ds: seq<Delivery>)
    requires Sane(cfg) && b.mode == Open && Reaches(cfg, b, d)
    ensures BreakerAfter(cfg, b, d).mode ==
      (match d.send case Delivered => Closed case TokenInvalid => HalfOpen case ProviderFailed => Open)
    ensures d.send == TokenInvalid ==> Sends(cfg, BreakerAfter(cfg, b, d), ds) == 0
    ensures d.send != TokenInvalid ==> exists later :: Sends(cfg, BreakerAfter(cfg, b, d), [later]) == 1
  {
    var b' := BreakerAfter(cfg, b, d);
    if d.send == TokenInvalid {
      HalfOpenWedges(cfg, b', ds);
    } else {
      var later := Delivery(Token(true), Delivered, b'.openedAt + cfg.cooldown, 0, true, "", true);
      assert Reaches(cfg, b', later);
      assert Sends(cfg, b', [later]) == 1 + Sends(cfg, BreakerAfter(cfg, b', later), [later][1..]);
    }
  }

  // ---------------------------------------------------- where a dispatch ends

  /** A dispatch is in the stream with so many deliveries behind it, or settled: sent, found
      undeliverable (no token, dead token, no driver), parked on the dead-letter subject, or stranded
      because the stream stops redelivering it. */
  datatype Fate = InStream(delivered: nat) | Sent | Undeliverable | DeadLettered | Stranded

  function Settled(f: Fate, cfg: Config, b: State, d: Delivery, maxDeliveries: int, maxDeliver: nat): Fate {
    if !f.InStream? then f
    else
      var n := f.delivered + 1;
      match Verdict(cfg, b, d, n, maxDeliveries)
      case Ack => if d.lookup == Token(true) && d.send == Delivered then Sent else Undeliverable
      case Nack => Requeued(n, maxDeliver)
      case Dead => if d.dlqOk then DeadLettered else Requeued(n, maxDeliver)
  }

  function Requeued(n: nat, maxDeliver: nat): Fate {
    if n < maxDeliver then InStream(n) else Stranded
  }

  /** A dispatch's deliveries with the breaker found at each. */
  function FateAfter(f: Fate, cfg: Config, seen: seq<(State, Delivery)>, maxDeliveries: int, maxDeliver: nat): Fate
    decreases |seen|
  {
    if seen == [] then f
    else FateAfter(Settled(f, cfg, seen[0].0, seen[0].1, maxDeliveries, maxDeliver), cfg, seen[1..], maxDeliveries, maxDeliver)
  }

  /** A delivery that is given back although the service's own ceiling is reached: the breaker
      refused it, or the dead-letter write failed. */
  predicate Refused(cfg: Config, b: State, d: Delivery) {
    || (d.lookup == Token(true) && !Allows(cfg, b, d.askedAt))
    || (!d.dlqOk && (d.lookup == LookupFailed || (Reaches(cfg, b, d) && d.send == ProviderFailed)))
  }

  lemma {:induction false} SettledStays(f: Fate, cfg: Config, seen: seq<(State, Delivery)>, maxDeliveries: int, maxDeliver: nat)
    requires !f.InStream?
    ensures FateAfter(f, cfg, seen, maxDeliveries, maxDeliver) == f
    decreases |seen|
  {
    if seen != [] { SettledStays(f, cfg, seen[1..], maxDeliveries, maxDeliver); }
  }

  /** The lookup failed, or a driver was there and the breaker refused or the provider failed. */
  predicate Unserved(cfg: Config, b: State, d: Delivery) {
    d.lookup == LookupFailed || (d.lookup == Token(true) && (!Allows(cfg, b, d.askedAt) || d.send == ProviderFailed))
  }

  /** Delivery number `n` settles nothing: below the service's own ceiling any failure will do, from there
      on only a refusal by the breaker or a failing dead-letter write. */
  predicate HeldUp(cfg: Config, b: State, d: Delivery, n: int, maxDeliveries: int) {
    if n < maxDeliveries then Unserved(cfg, b, d) else Refused(cfg, b, d)
  }

  lemma HeldUpIsRequeued(n: nat, cfg: Config, b: State, d: Delivery, maxDeliveries: int, maxDeliver: nat)
    requires n < maxDeliver
    ensures HeldUp(cfg, b, d, n + 1, maxDeliveries)
       <==> Settled(InStream(n), cfg, b, d, maxDeliveries, maxDeliver) == Requeued(n + 1, maxDeliver)
  {
  }

  /** "Never dropped", exactly. After all the deliveries the stream allows, a dispatch is settled, and it
      is stranded if and only if every one of them was held up. */
  lemma {:induction false} StrandedExactly(n: nat, cfg: Config, seen: seq<(State, Delivery)>, maxDeliveries: int, maxDeliver: nat)
    requires n < maxDeliver && |seen| == maxDeliver - n
    ensures FateAfter(InStream(n), cfg, seen, maxDeliveries, maxDeliver) == Stranded
       <==> forall i :: 0 <= i < |seen| ==> HeldUp(cfg, seen[i].0, seen[i].1, n + i + 1, maxDeliveries)
    ensures !FateAfter(InStream(n), cfg, seen, maxDeliveries, maxDeliver).InStream?
    decreases |seen|
  {
    var rest := seen[1..];
    var f := Settled(InStream(n), cfg, seen[0].0, seen[0].1, maxDeliveries, maxDeliver);
    HeldUpIsRequeued(n, cfg, seen[0].0, seen[0].1, maxDeliveries, maxDeliver);
    if f == InStream(n + 1) {
      StrandedExactly(n + 1, cfg, rest, maxDeliveries, maxDeliver);
      assert forall i :: 0 <= i < |rest| ==> rest[i] == seen[i + 1];
      assert forall i :: 0 < i < |seen| ==> seen[i] == rest[i - 1];
    } else {
      SettledStays(f, cfg, rest, maxDeliveries, maxDeliver);
      assert n + 1 == maxDeliver || !HeldUp(cfg, seen[0].0, seen[0].1, n + 1, maxDeliveries);
    }
  }

  /** A provider outage does drop pushes: redelivery is immediate, so a dispatch can burn every
      delivery it has inside one cooldown of an open breaker, and never reaches the dead-letter
      subject. */
  lemma {:induction false} OutageStrandsPush(cfg: Config, b: State, n: nat, seen: seq<(State, Delivery)>, maxDeliveries: int, maxDeliver: nat)
    requires b.mode == Open && n < maxDeliver && |seen| == maxDeliver - n
    requires forall i :: 0 <= i < |seen| ==>
      seen[i].0 == b && seen[i].1.lookup == Token(true) && seen[i].1.askedAt < b.openedAt + cfg.cooldown
    ensures FateAfter(InStream(n), cfg, seen, maxDeliveries, maxDeliver) == Stranded
    decreases |seen|
  {
    var f := Settled(InStream(n), cfg, seen[0].0, seen[0].1, maxDeliveries, maxDeliver);
    if n + 1 < maxDeliver {
      OutageStrandsPush(cfg, b, n + 1, seen[1..], maxDeliveries, maxDeliver);
    } else {
      SettledStays(f, cfg, seen[1..], maxDeliveries, maxDeliver);
    }
  }

  // ---------------------------------------------------- driving the breaker

  /** Every one of these deliveries gets through to the provider and fails there. */
  ghost predicate AllFail(cfg: Config, b: State, ds: seq<Delivery>)
    decreases |ds|
  {
    ds != [] ==> Reaches(cfg, b, ds[0]) && ds[0].send == ProviderFailed && AllFail(cfg, BreakerAfter(cfg, b, ds[0]), ds[1..])
  }

  /** Their failures fall into one window. */
  ghost predicate OneWindow(cfg: Config, ds: seq<Delivery>) {
    forall i, j :: 0 <= i < j < |ds| ==> ds[i].toldAt > ds[j].toldAt - cfg.window
  }

  lemma {:induction false} RecentKeeps(pre: seq<int>, mine: seq<int>, cutoff: int)
    requires forall i :: 0 <= i < |mine| ==> mine[i] > cutoff
    ensures Recent(pre + mine, cutoff) == Recent(pre, cutoff) + mine
    decreases |mine|
  {
    if mine == [] {
      assert pre + mine == pre;
    } else {
      var init, t := mine[..|mine| - 1], mine[|mine| - 1];
      RecentKeeps(pre, init, cutoff);
      RecentSnoc(pre + init, t, cutoff);
      assert (pre + init) + [t] == pre + mine;
    }
  }

  /** One failing delivery: it is counted, and a breaker that is not closed is open again. */
  lemma FailureCounts(cfg: Config, b: State, d: Delivery, pre: seq<int>, mine: seq<int>)
    requires Sane(cfg) && Reaches(cfg, b, d) && d.send == ProviderFailed
    requires b.mode == Closed ==> b.failures == pre + mine && forall i :: 0 <= i < |mine| ==> mine[i] > d.toldAt - cfg.window
    ensures
      var b' := BreakerAfter(cfg, b, d);
      && (b.mode != Closed ==> b'.mode == Open)
      && (b.mode == Closed ==> b'.failures == Recent(pre, d.toldAt - cfg.window) + (mine + [d.toldAt]))
      && (b'.mode == Closed ==> |b'.failures| < cfg.threshold)
  {
    if b.mode == Closed {
      RecentKeeps(pre, mine, d.toldAt - cfg.window);
      var kept := Recent(pre, d.toldAt - cfg.window);
      assert (kept + mine) + [d.toldAt] == kept + (mine + [d.toldAt]);
    }
  }

  lemma {:induction false} BurstOpens(cfg: Config, b: State, ds: seq<Delivery>, pre: seq<int>, mine: seq<int>)
    requires Sane(cfg) && AllFail(cfg, b, ds) && OneWindow(cfg, ds) && b.mode != HalfOpen
    requires b.mode == Closed ==>
      && b.failures == pre + mine && |mine| < cfg.threshold && |mine| + |ds| >= cfg.threshold
      && forall i, j :: 0 <= i < |mine| && 0 <= j < |ds| ==> mine[i] > ds[j].toldAt - cfg.window
    ensures AfterAll(cfg, b, ds).mode == Open
    decreases |ds|
  {
    if ds != [] {
      var d, rest := ds[0], ds[1..];
      var b' := BreakerAfter(cfg, b, d);
      FailureCounts(cfg, b, d, pre, mine);
      var pre', mine' := Recent(pre, d.toldAt - cfg.window), mine + [d.toldAt];
      assert forall j :: 0 <= j < |rest| ==> rest[j] == ds[j + 1];
      if b'.mode == Closed {
        forall i, j | 0 <= i < |mine'| && 0 <= j < |rest| ensures mine'[i] > rest[j].toldAt - cfg.window {
          if i < |mine| { assert mine'[i] == mine[i]; }
        }
      }
      BurstOpens(cfg, b', rest, pre', mine');
    }
  }

  /** An outage opens the breaker: from any closed breaker, as many deliveries as the threshold that reach the
      provider and fail within one window leave it open. */
  lemma OutageOpens(cfg: Config, b: State, ds: seq<Delivery>)
    requires Sane(cfg) && b.mode == Closed
    requires |ds| >= cfg.threshold && AllFail(cfg, b, ds) && OneWindow(cfg, ds)
    ensures AfterAll(cfg, b, ds).mode == Open
  {
    assert b.failures + [] == b.failures;
    BurstOpens(cfg, b, ds, b.failures, []);
  }

  /** And an open breaker spares the provider: whatever is delivered within its cooldown, nothing is sent. */
  lemma {:induction false} OpenSendsNothing(cfg: Config, b: State, ds: seq<Delivery>)
    requires b.mode == Open && forall i :: 0 <= i < |ds| ==> ds[i].askedAt < b.openedAt + cfg.cooldown
    ensures Sends(cfg, b, ds) == 0 && AfterAll(cfg, b, ds) == b
    decreases |ds|
  {
    if ds != [] {
      assert forall i :: 0 <= i < |ds[1..]| ==> ds[1..][i] == ds[i + 1];
      OpenSendsNothing(cfg, b, ds[1..]);
    }
  }

  /** With fewer failures than the threshold a closed breaker stays closed and lets everything through. */
  lemma {:induction false} FewFailuresPass(cfg: Config, b: State, ds: seq<Delivery>)
    requires Sane(cfg) && b.mode == Closed && |b.failures| + |ds| < cfg.threshold
    requires forall i :: 0 <= i < |ds| ==> ds[i].lookup == Token(true) && ds[i].send == ProviderFailed
    ensures AfterAll(cfg, b, ds).mode == Closed && Sends(cfg, b, ds) == |ds|
    decreases |ds|
  {
    if ds != [] {
      var b' := BreakerAfter(cfg, b, ds[0]);
      RecentShorter(b.failures, ds[0].toldAt - cfg.window);
      assert forall i :: 0 <= i < |ds[1..]| ==> ds[1..][i] == ds[i + 1];
      FewFailuresPass(cfg, b', ds[1..]);
    }
  }

  lemma {:induction false} RecentShorter(times: seq<int>, cutoff: int)
    ensures |Recent(times, cutoff)| <= |times|
    decreases |times|
  {
    if times != [] { RecentShorter(times[..|times| - 1], cutoff); }
  }

  /** A delivered push closes the breaker with nothing counted against it. */
  lemma DeliveredClears(cfg: Config, b: State, d: Delivery)
    requires Reaches(cfg, b, d) && d.send == Delivered
    ensures BreakerAfter(cfg, b, d).mode == Closed && BreakerAfter(cfg, b, d).failures == []
  {
  }

  /** A delivery that does not reach the provider tells the breaker nothing. */
  lemma UnreachedLeavesBreaker(cfg: Config, b: State, d: Delivery)
    requires !Reaches(cfg, b, d)
    ensures BreakerAfter(cfg, b, d) == b
  {
  }

  // --------------------------------------------------------------- push tokens

  function TokensAfterAll(cfg: Config, b: State, tokens: set<string>, ds: seq<Delivery>): set<string>
    decreases |ds|
  {
    if ds == [] then tokens
    else TokensAfterAll(cfg, BreakerAfter(cfg, b, ds[0]), TokensAfter(cfg, b, tokens, ds[0]), ds[1..])
  }

  /** Some send for `device` came back as dead and the token store took the deletion. */
  ghost predicate FoundDead(cfg: Config, b: State, ds: seq<Delivery>, device: string)
    decreases |ds|
  {
    ds != [] &&
    ((ds[0].device == device && Reaches(cfg, b, ds[0]) && ds[0].send == TokenInvalid && ds[0].deleteOk)
     || FoundDead(cfg, BreakerAfter(cfg, b, ds[0]), ds[1..], device))
  }

  /** Over any deliveries a token goes exactly if it was found dead: never on a provider failure. */
  lemma {:induction false} TokenGoesExactly(cfg: Config, b: State, tokens: set<string>, ds: seq<Delivery>, device: string)
    ensures device in TokensAfterAll(cfg, b, tokens, ds) <==> device in tokens && !FoundDead(cfg, b, ds, device)
    decreases |ds|
  {
    if ds != [] {
      TokenGoesExactly(cfg, BreakerAfter(cfg, b, ds[0]), TokensAfter(cfg, b, tokens, ds[0]), ds[1..], device);
    }
  }

  // --------------------------------------------------------- one delivery's end

  /** How one delivery, the `n`th, settles a dispatch, by what happened to it. */
  lemma SettledExactly(n: nat, cfg: Config, b: State, d: Delivery, maxDeliveries: int, maxDeliver: nat)
    requires 1 <= n <= maxDeliver
    ensures
      var f := Settled(InStream(n - 1), cfg, b, d, maxDeliveries, maxDeliver);
      && (f == Sent <==> Reaches(cfg, b, d) && d.send == Delivered)
      && (f == Undeliverable <==>
            d.lookup == NoToken || d.lookup == Token(false) || (Reaches(cfg, b, d) && d.send == TokenInvalid))
      && (f == DeadLettered <==>
            n >= maxDeliveries && d.dlqOk && (d.lookup == LookupFailed || (Reaches(cfg, b, d) && d.send == ProviderFailed)))
  {
  }
}
