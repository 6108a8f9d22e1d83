/** The versioned membership cache: concurrent readers over a cache whose version and member set are
    two keys, and a source of record read in two queries, while mutations bump the version. */
module Membership {
  import opened Ports

  type Members = set<string>

  /** Where one Members call stands. `writes` is the number of cache writes it had seen when it read
      the version key. */
  datatype Stage =
    | Start
    | CacheVersion(version: nat, writes: nat)
    | Reload
    | SourceVersion(version: nat)
    | SourceMembers(version: nat, members: Members, readAt: nat)
    | Returned(version: nat, members: Members, torn: bool)
    | Failed

  /** `begun` is the group's version when the call started. */
  datatype Reader = Reader(minVersion: nat, begun: nat, stage: Stage)

  /** `history[v]` is the membership at version v; `origin` the version at which the
      cached set was read. */
  datatype State = State(
    history: seq<Members>, version: Option<nat>, cached: Members, origin: nat, writes: nat, readers: seq<Reader>)

  function Current(s: State): nat
    requires s.history != []
  {
    |s.history| - 1
  }

  datatype Step =
    | Mutate(members: Members)
    | Invalidate
    | Begin(minVersion: nat)
    | ReadVersion(id: nat, err: bool)
    | ReadMembers(id: nat, err: bool)
    | LoadVersion(id: nat, err: bool)
    | LoadMembers(id: nat, err: bool)
    | Warm(id: nat, ok: bool)

  predicate Enabled(s: State, st: Step) {
    s.history != [] &&
    match st
    case Mutate(_) => true
    case Invalidate => true
    case Begin(_) => true
    case ReadVersion(id, _) => id < |s.readers| && s.readers[id].stage == Start
    case ReadMembers(id, _) => id < |s.readers| && s.readers[id].stage.CacheVersion?
    case LoadVersion(id, _) => id < |s.readers| && s.readers[id].stage == Reload
    case LoadMembers(id, _) => id < |s.readers| && s.readers[id].stage.SourceVersion?
    case Warm(id, _) => id < |s.readers| && s.readers[id].stage.SourceMembers?
  }

  function At(s: State, id: nat, stage: Stage): State
    requires id < |s.readers|
  {
    s.(readers := s.readers[id := s.readers[id].(stage := stage)])
  }

  function Taken(s: State, st: Step): State
    requires Enabled(s, st)
  {
    match st
    case Mutate(members) => s.(history := s.history + [members])
    case Invalidate => s.(version := None, cached := {}, writes := s.writes + 1)
    case Begin(minVersion) => s.(readers := s.readers + [Reader(minVersion, Current(s), Start)])
    case ReadVersion(id, err) =>
      At(s, id, if err || s.version.None? then Reload else CacheVersion(s.version.value, s.writes))
    case ReadMembers(id, err) =>
      var CacheVersion(v, writes) := s.readers[id].stage;
      At(s, id, if err || v < s.readers[id].minVersion then Reload else Returned(v, s.cached, writes != s.writes))
    case LoadVersion(id, err) => At(s, id, if err then Failed else SourceVersion(Current(s)))
    case LoadMembers(id, err) =>
      At(s, id, if err then Failed else SourceMembers(s.readers[id].stage.version, s.history[Current(s)], Current(s)))
    case Warm(id, ok) =>
      var SourceMembers(v, members, readAt) := s.readers[id].stage;
      var s' := At(s, id, Returned(v, members, false));
      if ok then s'.(version := Some(v), cached := members, origin := readAt, writes := s.writes + 1)
      else s'
  }

  ghost predicate Legal(s: State, steps: seq<Step>)
    decreases |steps|
  {
    steps != [] ==> Enabled(s, steps[0]) && Legal(Taken(s, steps[0]), steps[1..])
  }

  ghost function Run(s: State, steps: seq<Step>): State
    requires Legal(s, steps)
    decreases |steps|
  {
    if steps == [] then s else Run(Taken(s, steps[0]), steps[1..])
  }

  function Initial(members: Members): State {
    State([members], None, {}, 0, 0, [])
  }

  // -------------------------------------------------------------- invariants

  /** `members` really was the membership, at `v` or later. */
  ghost predicate Fresh(history: seq<Members>, v: nat, members: Members) {
    exists w :: v <= w < |history| && history[w] == members
  }

  ghost predicate CacheSound(s: State) {
    s.version.Some? ==> s.version.value <= s.origin < |s.history| && s.history[s.origin] == s.cached
  }

  ghost predicate ReaderSound(s: State, r: Reader) {
    && r.begun < |s.history|
    && match r.stage
       case CacheVersion(v, writes) => v < |s.history| && writes <= s.writes && (writes == s.writes ==> s.version == Some(v))
       case SourceVersion(v) => r.begun <= v < |s.history|
       case SourceMembers(v, members, readAt) =>
         r.begun <= v <= readAt < |s.history| && s.history[readAt] == members
       case Returned(v, members, torn) =>
         (r.minVersion <= r.begun ==> r.minVersion <= v) && (!torn ==> Fresh(s.history, v, members))
       case _ => true
  }

  ghost predicate Inv(s: State) {
    && s.history != []
    && (s.version.None? ==> s.cached == {})
    && CacheSound(s)
    && forall i :: 0 <= i < |s.readers| ==> ReaderSound(s, s.readers[i])
  }

  lemma FreshGrows(history: seq<Members>, more: seq<Members>, v: nat, members: Members)
    ensures Fresh(history, v, members) ==> Fresh(history + more, v, members)
  {
    if Fresh(history, v, members) {
      var w :| v <= w < |history| && history[w] == members;
      assert (history + more)[w] == members;
    }
  }

  lemma MutateKeepsInv(s: State, members: Members)
    requires Inv(s)
    ensures Inv(Taken(s, Mutate(members)))
  {
    forall v, m ensures Fresh(s.history, v, m) ==> Fresh(s.history + [members], v, m) {
      FreshGrows(s.history, [members], v, m);
    }
  }

  lemma WarmKeepsInv(s: State, st: Step)
    requires Inv(s) && Enabled(s, st) && st.Warm?
    ensures Inv(Taken(s, st))
  {
    assert ReaderSound(s, s.readers[st.id]);
    var s' := Taken(s, st);
    forall i | 0 <= i < |s'.readers| ensures ReaderSound(s', s'.readers[i]) {
      assert ReaderSound(s, s.readers[i]);
    }
  }

  lemma StepKeepsInv(s: State, st: Step)
    requires Inv(s) && Enabled(s, st)
    ensures Inv(Taken(s, st))
  {
    match st
    case Mutate(members) => MutateKeepsInv(s, members);
    case Warm(_, _) => WarmKeepsInv(s, st);
    case ReadMembers(id, _) => assert ReaderSound(s, s.readers[id]);
    case _ =>
  }

  lemma {:induction false} RunKeepsInv(s: State, steps: seq<Step>)
    requires Inv(s) && Legal(s, steps)
    ensures Inv(Run(s, steps))
    decreases |steps|
  {
    if steps != [] {
      StepKeepsInv(s, steps[0]);
      RunKeepsInv(Taken(s, steps[0]), steps[1..]);
    }
  }

  // ---------------------------------------------------------------- theorems

  /** Under any interleaving of readers, stale warm-ups, invalidations, port errors and mutations: a
      call never answers below its minimum version once the source had reached it, and unless the
      cache was written between its two cache reads, the set it answers really was the membership at
      the answered version or later. */
  lemma MembersAreFresh(members: Members, steps: seq<Step>, id: nat)
    requires Legal(Initial(members), steps)
    requires var s := Run(Initial(members), steps); id < |s.readers| && s.readers[id].stage.Returned?
    ensures
      var s := Run(Initial(members), steps);
      var r := s.readers[id];
      && (r.minVersion <= r.begun ==> r.minVersion <= r.stage.version)
      && (!r.stage.torn ==> Fresh(s.history, r.stage.version, r.stage.members))
  {
    RunKeepsInv(Initial(members), steps);
    assert ReaderSound(Run(Initial(members), steps), Run(Initial(members), steps).readers[id]);
  }

  /** The last version at which the membership was `members`, or -1. Versions also move without it, when
      a role or the group's information changes. */
  function LastAs(history: seq<Members>, members: Members): int {
    if history == [] then -1
    else if history[|history| - 1] == members then |history| - 1
    else LastAs(history[..|history| - 1], members)
  }

  lemma {:induction false} FreshExactly(history: seq<Members>, v: nat, members: Members)
    ensures Fresh(history, v, members) <==> v <= LastAs(history, members)
    ensures -1 <= LastAs(history, members) < |history|
    ensures LastAs(history, members) >= 0 ==> history[LastAs(history, members)] == members
    decreases |history|
  {
    if history != [] {
      var init := history[..|history| - 1];
      FreshExactly(init, v, members);
      if Fresh(history, v, members) && history[|history| - 1] != members {
        var w :| v <= w < |history| && history[w] == members;
        assert init[w] == members;
      }
    }
  }

  /** When a cache hit is right: exactly if the announced version is not past the last one with the set
      found. That is so whenever that set was read at or after the announced version, in particular
      whenever the version key, looked up again, is still there and no older. */
  lemma CacheHitExactly(s: State, id: nat)
    requires Inv(s) && Enabled(s, ReadMembers(id, false))
    ensures
      var v := s.readers[id].stage.version;
      && (Fresh(s.history, v, s.cached) <==> v <= LastAs(s.history, s.cached))
      && (s.version.Some? && v <= s.origin ==> Fresh(s.history, v, s.cached))
      && (s.version.Some? && v <= s.version.value ==> v <= s.origin)
  {
    FreshExactly(s.history, s.readers[id].stage.version, s.cached);
  }

  /** No mutation from version `v` to `w` touched the members. */
  ghost predicate Unchanged(history: seq<Members>, v: nat, w: nat) {
    forall i :: v <= i < w && i + 1 < |history| ==> history[i + 1] == history[i]
  }

  lemma {:induction false} UnchangedSame(history: seq<Members>, v: nat, w: nat)
    requires v <= w < |history| && Unchanged(history, v, w)
    ensures history[w] == history[v]
    decreases w
  {
    if v < w { UnchangedSame(history, v, w - 1); }
  }

  /** An answer is the membership at the very version it announces, from the source, if no mutation between
      its two queries touched the members, and from the cache, if none did between the announced version and
      the one at which the cached set was read. */
  lemma ExactWhenUnchanged(s: State, id: nat)
    requires Inv(s)
    ensures Enabled(s, LoadMembers(id, false)) ==>
      var v := s.readers[id].stage.version;
      var got := Taken(s, LoadMembers(id, false)).readers[id].stage;
      v < |s.history| && (Unchanged(s.history, v, Current(s)) ==> got.members == s.history[v])
    ensures
      Enabled(s, ReadMembers(id, false)) && s.readers[id].minVersion <= s.readers[id].stage.version && s.version.Some? ==>
      var v := s.readers[id].stage.version;
      var got := Taken(s, ReadMembers(id, false)).readers[id].stage;
      v < |s.history| && (v <= s.origin && Unchanged(s.history, v, s.origin) ==> got.members == s.history[v])
  {
    if id < |s.readers| {
      assert ReaderSound(s, s.readers[id]);
      if Enabled(s, LoadMembers(id, false)) {
        var v := s.readers[id].stage.version;
        if Unchanged(s.history, v, Current(s)) { UnchangedSame(s.history, v, Current(s)); }
      }
      if Enabled(s, ReadMembers(id, false)) && s.version.Some? {
        var v := s.readers[id].stage.version;
        if v <= s.origin && Unchanged(s.history, v, s.origin) { UnchangedSame(s.history, v, s.origin); }
      }
    }
  }

  // --------------------------------------------------------- the torn cache read

  lemma {:induction false} RunAppend(s: State, a: seq<Step>, st: Step)
    requires Legal(s, a) && Enabled(Run(s, a), st)
    ensures Legal(s, a + [st]) && Run(s, a + [st]) == Taken(Run(s, a), st)
    decreases |a|
  {
    if a == [] {
      assert a + [st] == [st];
      assert Legal(Taken(s, st), []);
    } else {
      RunAppend(Taken(s, a[0]), a[1..], st);
      assert (a + [st])[1..] == a[1..] + [st];
    }
  }

  /** A reader that warmed the cache at version 0 and a second reader that has read the version key. */
  const WARMED: State := State(
    [{"a", "b"}], Some(0), {"a", "b"}, 0, 1,
    [Reader(0, 0, Returned(0, {"a", "b"}, false)), Reader(0, 0, CacheVersion(0, 1))])

  lemma WarmedReachable() returns (steps: seq<Step>)
    ensures Legal(Initial({"a", "b"}), steps) && Run(Initial({"a", "b"}), steps) == WARMED
  {
    var s := Initial({"a", "b"});
    steps := [];
    RunAppend(s, steps, Begin(0));
    steps := steps + [Begin(0)];
    RunAppend(s, steps, ReadVersion(0, false));
    steps := steps + [ReadVersion(0, false)];
    RunAppend(s, steps, LoadVersion(0, false));
    steps := steps + [LoadVersion(0, false)];
    RunAppend(s, steps, LoadMembers(0, false));
    steps := steps + [LoadMembers(0, false)];
    RunAppend(s, steps, Warm(0, true));
    steps := steps + [Warm(0, true)];
    RunAppend(s, steps, Begin(0));
    steps := steps + [Begin(0)];
    RunAppend(s, steps, ReadVersion(1, false));
    steps := steps + [ReadVersion(1, false)];
  }

  /** An invalidation between the two cache reads makes a populated group answer nobody. */
  lemma InvalidationTearsRead()
    ensures
      var s := Taken(Taken(WARMED, Invalidate), ReadMembers(1, false));
      s.readers[1].stage == Returned(0, {}, true) && !Fresh(s.history, 0, {})
  {
  }

  /** A slow reader's warm-up with an older set between the two cache reads: the answer is right only if
      that set was still, or again, the membership at the announced version. */
  lemma StaleWarmTearsRead(s: State, slow: nat, fast: nat)
    requires Inv(s) && slow < |s.readers| && fast < |s.readers| && slow != fast
    requires s.readers[slow].stage.SourceMembers? && s.readers[fast].stage.CacheVersion?
    requires s.readers[fast].minVersion <= s.readers[fast].stage.version
    ensures
      var s' := Taken(Taken(s, Warm(slow, true)), ReadMembers(fast, false));
      var got := s'.readers[fast].stage;
      && got.Returned? && got.torn && got.version == s.readers[fast].stage.version
      && got.members == s.readers[slow].stage.members
      && (Fresh(s'.history, got.version, got.members)
          <==> s.readers[fast].stage.version <= LastAs(s.history, s.readers[slow].stage.members))
  {
    assert ReaderSound(s, s.readers[slow]) && ReaderSound(s, s.readers[fast]);
    FreshExactly(s.history, s.readers[fast].stage.version, s.readers[slow].stage.members);
  }

  /** The slow reader took the members before "b" joined; another warmed the cache after; a third has read
      its version key. */
  const STALE: State := State(
    [{"a"}, {"a", "b"}], Some(1), {"a", "b"}, 1, 1,
    [Reader(0, 0, SourceMembers(0, {"a"}, 0)), Reader(0, 1, Returned(1, {"a", "b"}, false)),
     Reader(0, 1, CacheVersion(1, 1))])

  lemma StaleReachable() returns (steps: seq<Step>)
    ensures Legal(Initial({"a"}), steps) && Run(Initial({"a"}), steps) == STALE
  {
    var s := Initial({"a"});
    steps := [];
    RunAppend(s, steps, Begin(0));
    steps := steps + [Begin(0)];
    RunAppend(s, steps, ReadVersion(0, false));
    steps := steps + [ReadVersion(0, false)];
    RunAppend(s, steps, LoadVersion(0, false));
    steps := steps + [LoadVersion(0, false)];
    RunAppend(s, steps, LoadMembers(0, false));
    steps := steps + [LoadMembers(0, false)];
    RunAppend(s, steps, Mutate({"a", "b"}));
    steps := steps + [Mutate({"a", "b"})];
    RunAppend(s, steps, Begin(0));
    steps := steps + [Begin(0)];
    RunAppend(s, steps, ReadVersion(1, false));
    steps := steps + [ReadVersion(1, false)];
    RunAppend(s, steps, LoadVersion(1, false));
    steps := steps + [LoadVersion(1, false)];
    RunAppend(s, steps, LoadMembers(1, false));
    steps := steps + [LoadMembers(1, false)];
    RunAppend(s, steps, Warm(1, true));
    steps := steps + [Warm(1, true)];
    RunAppend(s, steps, Begin(0));
    steps := steps + [Begin(0)];
    RunAppend(s, steps, ReadVersion(2, false));
    steps := steps + [ReadVersion(2, false)];
  }

  /** From there the third reader is told {"a"} at version 1, which was never so. */
  lemma StaleWarmIsWrong()
    ensures
      var s := Taken(Taken(STALE, Warm(0, true)), ReadMembers(2, false));
      s.readers[2].stage == Returned(1, {"a"}, true) && !Fresh(s.history, 1, {"a"})
  {
    var steps := StaleReachable();
    RunKeepsInv(Initial({"a"}), steps);
    StaleWarmTearsRead(STALE, 0, 2);
    var history := [{"a"}, {"a", "b"}];
    assert "b" in {"a", "b"} && "b" !in {"a"};
    assert history[..1] == [{"a"}];
    assert LastAs(history, {"a"}) == 0;
  }

  // ----------------------------------------------------------- when a call fails

  /** A query of this call to the source went wrong. */
  predicate SourceFailed(st: Step, id: nat) {
    (st.LoadVersion? || st.LoadMembers?) && st.id == id && st.err
  }

  /** Cache trouble never fails a call: on every run it fails only if one of its queries to the source did. */
  lemma {:induction false} FailsOnlyBySource(s: State, steps: seq<Step>, id: nat)
    requires Legal(s, steps) && (id < |s.readers| ==> s.readers[id].stage != Failed)
    requires forall i :: 0 <= i < |steps| ==> !SourceFailed(steps[i], id)
    ensures id < |Run(s, steps).readers| ==> Run(s, steps).readers[id].stage != Failed
    decreases |steps|
  {
    if steps != [] {
      assert !SourceFailed(steps[0], id);
      assert forall i :: 0 <= i < |steps[1..]| ==> steps[1..][i] == steps[i + 1];
      FailsOnlyBySource(Taken(s, steps[0]), steps[1..], id);
    }
  }

  /** What the cache answers is used exactly if both its reads worked, it had the group, and its version is new
      enough; everything else goes to the source. */
  lemma CacheUsedExactly(s: State, id: nat, err: bool)
    ensures Enabled(s, ReadVersion(id, err)) ==>
      Taken(s, ReadVersion(id, err)).readers[id].stage
      == if !err && s.version.Some? then CacheVersion(s.version.value, s.writes) else Reload
    ensures Enabled(s, ReadMembers(id, err)) ==>
      var r, stage := s.readers[id], Taken(s, ReadMembers(id, err)).readers[id].stage;
      && (stage.Returned? <==> !err && r.minVersion <= r.stage.version)
      && (stage.Returned? ==> stage.version == r.stage.version && stage.members == s.cached)
      && (!stage.Returned? ==> stage == Reload)
  {
  }

  /** A call sent to the source, with both queries answered and no mutation in between, returns the group as it
      is now, and leaves it in the cache for the next caller if the cache takes it. */
  lemma SourceAnswers(s: State, id: nat, ok: bool)
    requires Enabled(s, LoadVersion(id, false))
    ensures
      var s1 := Taken(s, LoadVersion(id, false));
      Enabled(s1, LoadMembers(id, false))
    ensures
      var s1 := Taken(s, LoadVersion(id, false));
      var s2 := if Enabled(s1, LoadMembers(id, false)) then Taken(s1, LoadMembers(id, false)) else s1;
      && Enabled(s2, Warm(id, ok))
      && Taken(s2, Warm(id, ok)).readers[id].stage == Returned(Current(s), s.history[Current(s)], false)
      && (ok ==> Taken(s2, Warm(id, ok)).version == Some(Current(s)) && Taken(s2, Warm(id, ok)).cached == s.history[Current(s)])
      && (!ok ==> Taken(s2, Warm(id, ok)).version == s.version && Taken(s2, Warm(id, ok)).cached == s.cached)
  {
  }

  /** After an invalidation the next reader asks the source. */
  lemma InvalidatedGoesToSource(s: State, id: nat, err: bool)
    requires Enabled(s, ReadVersion(id, err))
    ensures Taken(Taken(s, Invalidate), ReadVersion(id, err)).readers[id].stage == Reload
  {
  }

  /** And a query to the source that fails does fail the call: it is never answered with a guess. */
  lemma SourceFailureFails(s: State, id: nat)
    ensures Enabled(s, LoadVersion(id, true)) ==> Taken(s, LoadVersion(id, true)).readers[id].stage == Failed
    ensures Enabled(s, LoadMembers(id, true)) ==> Taken(s, LoadMembers(id, true)).readers[id].stage == Failed
  {
  }
}
