/** The per-provider circuit breaker: a pruned sliding window over failure times. */
module Breaker {

  const DEFAULT_THRESHOLD: int := 5
  const DEFAULT_WINDOW: int := 30_000_000_000
  const DEFAULT_COOLDOWN: int := 60_000_000_000

  datatype Mode = Closed | Open | HalfOpen

  datatype Config = Config(threshold: int, window: int, cooldown: int)

  predicate Sane(cfg: Config) {
    cfg.threshold > 0 && cfg.window > 0 && cfg.cooldown > 0
  }

  datatype State = State(mode: Mode, failures: seq<int>, openedAt: int)

  function Recent(times: seq<int>, cutoff: int): seq<int> {
    if times == [] then []
    else Recent(times[..|times| - 1], cutoff) + if times[|times| - 1] > cutoff then [times[|times| - 1]] else []
  }

  predicate Allows(cfg: Config, b: State, now: int) {
    match b.mode
    case Closed => true
    case Open => now - b.openedAt >= cfg.cooldown
    case HalfOpen => false
  }

  function Allowed(cfg: Config, b: State, now: int): State {
    if b.mode == Open && Allows(cfg, b, now) then b.(mode := HalfOpen) else b
  }

  function Recorded(cfg: Config, b: State, now: int, success: bool): State {
    if success then b.(mode := Closed, failures := [])
    else if b.mode == HalfOpen then b.(mode := Open, openedAt := now)
    else
      var failures := Recent(b.failures, now - cfg.window) + [now];
      if |failures| >= cfg.threshold then State(Open, failures, now) else b.(failures := failures)
  }

  class Breaker {
    const cfg: Config
    var mode: Mode
    var failures: seq<int>
    var openedAt: int

    function Value(): State
      reads this
    {
      State(mode, failures, openedAt)
    }

    constructor (threshold: int, window: int, cooldown: int)
      ensures Sane(cfg)
      ensures cfg.threshold == (if threshold <= 0 then 5 else threshold)
      ensures cfg.window == (if window <= 0 then 30_000_000_000 else window)
      ensures cfg.cooldown == (if cooldown <= 0 then 60_000_000_000 else cooldown)
      ensures Value() == State(Closed, [], 0)
    {
      cfg := Config(if threshold <= 0 then DEFAULT_THRESHOLD else threshold,
                    if window <= 0 then DEFAULT_WINDOW else window,
                    if cooldown <= 0 then DEFAULT_COOLDOWN else cooldown);
      mode, failures, openedAt := Closed, [], 0;
    }

    method Allow(now: int) returns (ok: bool)
      modifies this`mode
      ensures ok == Allows(cfg, old(Value()), now)
      ensures Value() == Allowed(cfg, old(Value()), now)
    {
      match mode
      case Open =>
        if now - openedAt >= cfg.cooldown {
          mode := HalfOpen;
          return true;
        }
        return false;
      case HalfOpen => return false;
      case Closed => return true;
    }

    method Record(now: int, success: bool)
      modifies this
      ensures Value() == Recorded(cfg, old(Value()), now, success)
    {
      if success {
        mode, failures := Closed, [];
        return;
      }
      if mode == HalfOpen {
        mode, openedAt := Open, now;
        return;
      }
      var cutoff := now - cfg.window;
      ghost var was := failures;
      var kept := 0;
      for i := 0 to |failures|
        invariant kept <= i && |failures| == |was|
        invariant failures[..kept] == Recent(was[..i], cutoff)
        invariant forall m :: i <= m < |was| ==> failures[m] == was[m]
        invariant mode == old(mode) && openedAt == old(openedAt)
      {
        assert was[..i + 1][..i] == was[..i];
        if failures[i] > cutoff {
          ghost var front := failures[..kept];
          failures := failures[kept := failures[i]];
          assert failures[..kept + 1] == front + [was[i]];
          kept := kept + 1;
        }
      }
      assert was[..|was|] == was;
      failures := failures[..kept] + [now];
      if |failures| >= cfg.threshold {
        mode, openedAt := Open, now;
      }
    }

    /** Is the breaker blocking right now? */
    method IsOpen(now: int) returns (blocking: bool)
      ensures blocking <==> mode == Open && !Allows(cfg, Value(), now)
    {
      if mode != Open {
        return false;
      }
      return now - openedAt < cfg.cooldown;
    }
  }

  // ------------------------------------------------------------ every history

  datatype Event = Ask(now: int) | Report(now: int, success: bool)

  function Next(cfg: Config, b: State, e: Event): State {
    match e
    case Ask(now) => Allowed(cfg, b, now)
    case Report(now, success) => Recorded(cfg, b, now, success)
  }

  function Run(cfg: Config, b: State, es: seq<Event>): State
    decreases |es|
  {
    if es == [] then b else Run(cfg, Next(cfg, b, es[0]), es[1..])
  }

  /** The answers given along a history. */
  function Answers(cfg: Config, b: State, es: seq<Event>): seq<bool>
    decreases |es|
  {
    if es == [] then []
    else (if es[0].Ask? then [Allows(cfg, b, es[0].now)] else []) + Answers(cfg, Next(cfg, b, es[0]), es[1..])
  }

  /** The clock never runs backwards. */
  ghost predicate Monotone(clock: int, es: seq<Event>)
    decreases |es|
  {
    es != [] ==> clock <= es[0].now && Monotone(es[0].now, es[1..])
  }

  /** The reference: it forgets nothing since the last success and scans it all at every failure. */
  function FullRecorded(cfg: Config, b: State, now: int, success: bool): State {
    if success then b.(mode := Closed, failures := [])
    else if b.mode == HalfOpen then b.(mode := Open, openedAt := now)
    else
      var all := b.failures + [now];
      if |Recent(all, now - cfg.window)| >= cfg.threshold then State(Open, all, now) else b.(failures := all)
  }

  function FullNext(cfg: Config, b: State, e: Event): State {
    match e
    case Ask(now) => Allowed(cfg, b, now)
    case Report(now, success) => FullRecorded(cfg, b, now, success)
  }

  function FullRun(cfg: Config, b: State, es: seq<Event>): State
    decreases |es|
  {
    if es == [] then b else FullRun(cfg, FullNext(cfg, b, es[0]), es[1..])
  }

  function FullAnswers(cfg: Config, b: State, es: seq<Event>): seq<bool>
    decreases |es|
  {
    if es == [] then []
    else (if es[0].Ask? then [Allows(cfg, b, es[0].now)] else []) + FullAnswers(cfg, FullNext(cfg, b, es[0]), es[1..])
  }

  lemma {:induction false} RecentOfRecent(times: seq<int>, low: int, high: int)
    requires low <= high
    ensures Recent(Recent(times, low), high) == Recent(times, high)
  {
    if times != [] {
      var init, t := times[..|times| - 1], times[|times| - 1];
      RecentOfRecent(init, low, high);
      RecentSnoc(Recent(init, low), t, high);
      assert Recent(times, low) == if t > low then Recent(init, low) + [t] else Recent(init, low);
    }
  }

  lemma RecentSnoc(times: seq<int>, t: int, cutoff: int)
    ensures Recent(times + [t], cutoff) == Recent(times, cutoff) + if t > cutoff then [t] else []
  {
    assert (times + [t])[..|times|] == times;
  }

  /** `b` is `full` with its failures at or before `cutoff` forgotten. */
  ghost predicate Prunes(b: State, full: State, cutoff: int) {
    b.mode == full.mode && b.openedAt == full.openedAt && b.failures == Recent(full.failures, cutoff)
  }

  lemma StepAgrees(cfg: Config, b: State, full: State, cutoff: int, e: Event) returns (cutoff': int)
    requires Sane(cfg) && Prunes(b, full, cutoff) && cutoff <= e.now - cfg.window
    ensures Prunes(Next(cfg, b, e), FullNext(cfg, full, e), cutoff') && cutoff' <= e.now - cfg.window
  {
    cutoff' := cutoff;
    if e.Report? && !e.success && b.mode != HalfOpen {
      cutoff' := e.now - cfg.window;
      RecentOfRecent(full.failures, cutoff, cutoff');
      RecentSnoc(full.failures, e.now, cutoff');
    }
  }

  /** With a monotone clock the pruned window decides exactly like the full history, at every
      failure and for every caller that asks. */
  lemma {:induction false} PrunedWindowAgrees(cfg: Config, b: State, full: State, cutoff: int, clock: int, es: seq<Event>)
    requires Sane(cfg) && Prunes(b, full, cutoff) && cutoff <= clock - cfg.window && Monotone(clock, es)
    ensures Run(cfg, b, es).mode == FullRun(cfg, full, es).mode
    ensures Run(cfg, b, es).openedAt == FullRun(cfg, full, es).openedAt
    ensures Answers(cfg, b, es) == FullAnswers(cfg, full, es)
    decreases |es|
  {
    if es != [] {
      var cutoff' := StepAgrees(cfg, b, full, cutoff, es[0]);
      PrunedWindowAgrees(cfg, Next(cfg, b, es[0]), FullNext(cfg, full, es[0]), cutoff', es[0].now, es[1..]);
    }
  }

  const STEP_BACK: seq<Event> := [Report(0, false), Report(20, false), Report(5, false)]

  /** A clock that steps back makes them differ: a pruned failure would have counted again. */
  lemma BackwardClockDisagrees()
    ensures Run(Config(3, 10, 60), State(Closed, [], 0), STEP_BACK).mode == Closed
    ensures FullRun(Config(3, 10, 60), State(Closed, [], 0), STEP_BACK).mode == Open
  {
    PrunedStaysClosed();
    FullOpens();
  }

  lemma RunCons(cfg: Config, b: State, e: Event, rest: seq<Event>)
    ensures Run(cfg, b, [e] + rest) == Run(cfg, Next(cfg, b, e), rest)
  {
    assert ([e] + rest)[1..] == rest;
  }

  lemma {:induction false} PrunedStaysClosed()
    ensures Run(Config(3, 10, 60), State(Closed, [], 0), STEP_BACK).mode == Closed
  {
    var cfg := Config(3, 10, 60);
    RunCons(cfg, State(Closed, [], 0), Report(0, false), [Report(20, false)] + ([Report(5, false)] + []));
    assert Next(cfg, State(Closed, [], 0), Report(0, false)) == State(Closed, [0], 0);
    RunCons(cfg, State(Closed, [0], 0), Report(20, false), [Report(5, false)] + []);
    assert Next(cfg, State(Closed, [0], 0), Report(20, false)) == State(Closed, [20], 0) by {
      RecentSnoc([], 0, 10);
      assert [] + [0] == [0];
    }
    RunCons(cfg, State(Closed, [20], 0), Report(5, false), []);
    assert Next(cfg, State(Closed, [20], 0), Report(5, false)) == State(Closed, [20, 5], 0) by {
      RecentSnoc([], 20, -5);
      assert [] + [20] == [20];
    }
    assert STEP_BACK == [Report(0, false)] + ([Report(20, false)] + ([Report(5, false)] + []));
  }

  lemma {:induction false} FullOpens()
    ensures FullRun(Config(3, 10, 60), State(Closed, [], 0), STEP_BACK).mode == Open
  {
    var cfg, es := Config(3, 10, 60), STEP_BACK;
    assert es[1..] == [es[1], es[2]] && es[1..][1..] == [es[2]] && es[1..][1..][1..] == [];
    RecentSnoc([], 0, -10);
    RecentSnoc([], 0, 10);
    RecentSnoc([0], 20, 10);
    assert [] + [0] == [0] && [0] + [20] == [0, 20];
    var f1 := FullNext(cfg, State(Closed, [], 0), es[0]);
    assert f1 == State(Closed, [0], 0);
    var f2 := FullNext(cfg, f1, es[1]);
    assert f2 == State(Closed, [0, 20], 0);
    RecentSnoc([], 0, -5);
    RecentSnoc([0], 20, -5);
    RecentSnoc([0, 20], 5, -5);
    var f3 := FullNext(cfg, f2, es[2]);
    assert FullRun(cfg, f3, []) == f3;
  }

  /** A closed breaker always holds fewer than threshold failures. */
  lemma {:induction false} ClosedHoldsFew(cfg: Config, b: State, es: seq<Event>)
    requires Sane(cfg) && (b.mode == Closed ==> |b.failures| < cfg.threshold)
    ensures Run(cfg, b, es).mode == Closed ==> |Run(cfg, b, es).failures| < cfg.threshold
    decreases |es|
  {
    if es != [] { ClosedHoldsFew(cfg, Next(cfg, b, es[0]), es[1..]); }
  }

  // -------------------------------------------------------------- single probe

  function Admitted(answers: seq<bool>): nat {
    if answers == [] then 0 else (if answers[0] then 1 else 0) + Admitted(answers[1..])
  }

  ghost predicate OnlyAsks(es: seq<Event>) {
    forall i :: 0 <= i < |es| ==> es[i].Ask?
  }

  ghost predicate CooledDown(cfg: Config, b: State, es: seq<Event>) {
    exists i :: 0 <= i < |es| && es[i].now - b.openedAt >= cfg.cooldown
  }

  /** While the probe is out, nobody else is admitted. */
  lemma {:induction false} HalfOpenAdmitsNobody(cfg: Config, b: State, es: seq<Event>)
    requires b.mode == HalfOpen && OnlyAsks(es)
    ensures Run(cfg, b, es) == b && Admitted(Answers(cfg, b, es)) == 0
    decreases |es|
  {
    if es != [] {
      assert es[0].Ask?;
      HalfOpenAdmitsNobody(cfg, b, es[1..]);
    }
  }

  /** From opening until the next recorded outcome one request is admitted if any asks after the
      cooldown, and none otherwise. */
  lemma {:induction false} SingleProbe(cfg: Config, b: State, es: seq<Event>)
    requires b.mode == Open && OnlyAsks(es)
    ensures Admitted(Answers(cfg, b, es)) == if CooledDown(cfg, b, es) then 1 else 0
    ensures Run(cfg, b, es).mode == if CooledDown(cfg, b, es) then HalfOpen else Open
    decreases |es|
  {
    if es != [] {
      var e, rest := es[0], es[1..];
      assert e.Ask?;
      var tail := Answers(cfg, Next(cfg, b, e), rest);
      assert Answers(cfg, b, es) == [Allows(cfg, b, e.now)] + tail;
      assert ([Allows(cfg, b, e.now)] + tail)[1..] == tail;
      if Allows(cfg, b, e.now) {
        HalfOpenAdmitsNobody(cfg, Next(cfg, b, e), rest);
      } else {
        SingleProbe(cfg, b, rest);
        if CooledDown(cfg, b, es) {
          var i :| 0 <= i < |es| && es[i].now - b.openedAt >= cfg.cooldown;
          assert rest[i - 1] == es[i];
        }
        if CooledDown(cfg, b, rest) {
          var i :| 0 <= i < |rest| && rest[i].now - b.openedAt >= cfg.cooldown;
          assert es[i + 1] == rest[i];
        }
      }
    }
  }
}
