/** The flap damper: offline announcements delayed by timers whose bodies may already be waiting for
    the lock when Stop is called. Each locked section is one step. */
module Flap {

  /** A timer is armed, its body is waiting for the lock, its body is over, or Stop was in time. */
  datatype Timer = Armed | Waiting | Over | Stopped

  /** What became of a registration in the timers map. */
  datatype Fate = Pending | Replaced | Cancelled | Fired(body: nat, at: int)

  datatype Registration = Registration(key: string, at: int, timer: Timer, fate: Fate)

  datatype State = State(clock: int, timers: map<string, nat>, regs: seq<Registration>)

  datatype Step =
    | Tick(now: int)
    | Disconnected(key: string)
    | Reconnected(key: string)
    | StopAll
    | Expire(reg: nat)
    | Body(reg: nat)

  predicate Enabled(grace: int, s: State, st: Step) {
    match st
    case Tick(now) => now >= s.clock
    case Expire(r) => r < |s.regs| && s.regs[r].timer == Armed && s.clock >= s.regs[r].at + grace
    case Body(r) => r < |s.regs| && s.regs[r].timer == Waiting
    case _ => true
  }

  /** Stop reaches an armed timer only; the entry leaves the map either way. */
  function Let(reg: Registration, fate: Fate): Registration {
    reg.(timer := if reg.timer == Armed then Stopped else reg.timer, fate := fate)
  }

  function Ended(s: State, key: string, fate: Fate): State {
    if key in s.timers && s.timers[key] < |s.regs| then
      s.(timers := s.timers - {key}, regs := s.regs[s.timers[key] := Let(s.regs[s.timers[key]], fate)])
    else s
  }

  function Taken(grace: int, s: State, st: Step): State
    requires Enabled(grace, s, st)
  {
    match st
    case Tick(now) => s.(clock := now)
    case Disconnected(key) =>
      var s' := Ended(s, key, Replaced);
      s'.(timers := s'.timers[key := |s'.regs|], regs := s'.regs + [Registration(key, s.clock, Armed, Pending)])
    case Reconnected(key) => Ended(s, key, Cancelled)
    case StopAll =>
      s.(timers := map[],
         regs := seq(|s.regs|, i requires 0 <= i < |s.regs| =>
                       if s.regs[i].fate == Pending then Let(s.regs[i], Cancelled) else s.regs[i]))
    case Expire(r) => s.(regs := s.regs[r := s.regs[r].(timer := Waiting)])
    case Body(r) =>
      // The body only checks that some registration is there, not that it is its own.
      var key := s.regs[r].key;
      var regs := s.regs[r := s.regs[r].(timer := Over)];
      if key in s.timers && s.timers[key] < |regs| then
        var e := s.timers[key];
        State(s.clock, s.timers - {key}, regs[e := regs[e].(fate := Fired(r, s.clock))])
      else s.(regs := regs)
  }

  ghost predicate Legal(grace: int, s: State, steps: seq<Step>)
    decreases |steps|
  {
    steps != [] ==> Enabled(grace, s, steps[0]) && Legal(grace, Taken(grace, s, steps[0]), steps[1..])
  }

  ghost function Run(grace: int, s: State, steps: seq<Step>): State
    requires Legal(grace, s, steps)
    decreases |steps|
  {
    if steps == [] then s else Run(grace, Taken(grace, s, steps[0]), steps[1..])
  }

  const INITIAL: State := State(0, map[], [])

  // ------------------------------------------------------------- the damper

  const DEFAULT_GRACE_MS: int := 15000

  /** Each method is one locked section. `timers` points at the timers ever started, `regs`. */
  class FlapDamper {
    const grace: int
    var timers: map<string, nat>
    var regs: seq<Registration>

    constructor (grace: int)
      ensures this.grace == if grace <= 0 then 15000 else grace
      ensures At(0) == INITIAL
    {
      this.grace, timers, regs := if grace <= 0 then DEFAULT_GRACE_MS else grace, map[], [];
    }

    ghost function At(now: int): State
      reads this
    {
      State(now, timers, regs)
    }

    /** The pending registrations are the ones the map points at. */
    ghost predicate Valid()
      reads this
    {
      && (forall key :: key in timers ==> timers[key] < |regs| && regs[timers[key]].key == key)
      && (forall e :: 0 <= e < |regs| ==>
            (regs[e].fate == Pending <==> regs[e].key in timers && timers[regs[e].key] == e))
    }

    method Disconnected(key: string, now: int)
      requires Valid()
      modifies this
      ensures Valid() && At(now) == Taken(grace, old(At(now)), Step.Disconnected(key))
    {
      if key in timers { regs := regs[timers[key] := Let(regs[timers[key]], Replaced)]; }
      timers := timers[key := |regs|];
      regs := regs + [Registration(key, now, Armed, Pending)];
    }

    method Reconnected(key: string, ghost now: int) returns (absorbed: bool)
      requires Valid()
      modifies this
      ensures Valid() && At(now) == Taken(grace, old(At(now)), Step.Reconnected(key))
      ensures absorbed <==> key in old(timers)
    {
      if key !in timers { return false; }
      regs := regs[timers[key] := Let(regs[timers[key]], Cancelled)];
      timers := timers - {key};
      absorbed := true;
    }

    /** What the timer runs once it has the lock; `fires` is whether it goes on to announce. */
    method TimerBody(r: nat, now: int) returns (fires: bool)
      requires Valid() && Enabled(grace, At(now), Body(r))
      modifies this
      ensures Valid() && At(now) == Taken(grace, old(At(now)), Body(r))
      ensures fires <==> old(regs[r].key in timers)
    {
      var key := regs[r].key;
      regs := regs[r := regs[r].(timer := Over)];
      if key !in timers { return false; }
      regs := regs[timers[key] := regs[timers[key]].(fate := Fired(r, now))];
      timers := timers - {key};
      fires := true;
    }

    method StopAll(ghost now: int)
      requires Valid()
      modifies this
      ensures Valid() && At(now) == Taken(grace, old(At(now)), Step.StopAll)
    {
      while timers != map[]
        invariant Valid() && |regs| == |old(regs)|
        invariant forall e :: 0 <= e < |regs| ==>
          regs[e] == old(regs[e])
          || (old(regs[e]).fate == Pending && regs[e] == Let(old(regs[e]), Cancelled))
        decreases |timers|
      {
        var key :| key in timers;
        regs := regs[timers[key] := Let(regs[timers[key]], Cancelled)];
        timers := timers - {key};
      }
    }
  }

  // -------------------------------------------------------------- invariant

  ghost predicate RegSound(grace: int, s: State, e: nat)
    requires e < |s.regs|
  {
    var reg := s.regs[e];
    && reg.at <= s.clock
    && (reg.fate == Pending <==> reg.key in s.timers && s.timers[reg.key] == e)
    && (reg.timer == Waiting || reg.timer == Over ==> reg.at + grace <= s.clock)
    && (reg.fate.Fired? && reg.fate.body == e ==> reg.at + grace <= reg.fate.at)
    && (reg.fate.Fired? ==>
          && reg.fate.body < |s.regs| && s.regs[reg.fate.body].key == reg.key
          && s.regs[reg.fate.body].timer == Over
          && s.regs[reg.fate.body].at + grace <= reg.fate.at <= s.clock)
  }

  ghost predicate Inv(grace: int, s: State) {
    && (forall key :: key in s.timers ==> s.timers[key] < |s.regs| && s.regs[s.timers[key]].key == key)
    && (forall e :: 0 <= e < |s.regs| ==> RegSound(grace, s, e))
  }

  /** Once consumed, a registration's fate is final; what it was registered for never changes. */
  ghost predicate Follows(s: State, s': State) {
    && |s.regs| <= |s'.regs| && s.clock <= s'.clock
    && forall e :: 0 <= e < |s.regs| ==>
         s'.regs[e].key == s.regs[e].key && s'.regs[e].at == s.regs[e].at
         && (s.regs[e].fate != Pending ==> s'.regs[e].fate == s.regs[e].fate)
  }

  lemma EndedKeepsInv(grace: int, s: State, key: string, fate: Fate)
    requires Inv(grace, s) && (fate == Replaced || fate == Cancelled)
    ensures Inv(grace, Ended(s, key, fate)) && Follows(s, Ended(s, key, fate))
    ensures key !in Ended(s, key, fate).timers && |Ended(s, key, fate).regs| == |s.regs|
    ensures Ended(s, key, fate).clock == s.clock
  {
    var s' := Ended(s, key, fate);
    if key in s.timers { assert RegSound(grace, s, s.timers[key]); }
    forall e | 0 <= e < |s'.regs| ensures RegSound(grace, s', e) { assert RegSound(grace, s, e); }
  }

  lemma DisconnectedKeepsInv(grace: int, s: State, key: string)
    requires Inv(grace, s) && grace > 0
    ensures Inv(grace, Taken(grace, s, Disconnected(key))) && Follows(s, Taken(grace, s, Disconnected(key)))
  {
    EndedKeepsInv(grace, s, key, Replaced);
    var t, s' := Ended(s, key, Replaced), Taken(grace, s, Disconnected(key));
    forall e | 0 <= e < |s'.regs| ensures RegSound(grace, s', e) {
      if e < |t.regs| { assert RegSound(grace, t, e); }
    }
  }

  lemma StopAllKeepsInv(grace: int, s: State)
    requires Inv(grace, s)
    ensures Inv(grace, Taken(grace, s, StopAll)) && Follows(s, Taken(grace, s, StopAll))
  {
    var s' := Taken(grace, s, StopAll);
    forall e | 0 <= e < |s'.regs| ensures RegSound(grace, s', e) {
      assert RegSound(grace, s, e);
      if s.regs[e].fate.Fired? { assert RegSound(grace, s, s.regs[e].fate.body); }
    }
  }

  lemma BodyKeepsInv(grace: int, s: State, r: nat)
    requires Inv(grace, s) && Enabled(grace, s, Body(r))
    ensures Inv(grace, Taken(grace, s, Body(r))) && Follows(s, Taken(grace, s, Body(r)))
  {
    var s' := Taken(grace, s, Body(r));
    assert RegSound(grace, s, r);
    forall e | 0 <= e < |s'.regs| ensures RegSound(grace, s', e) { assert RegSound(grace, s, e); }
    forall key | key in s.timers ensures RegSound(grace, s, s.timers[key]) {}
  }

  lemma StepKeepsInv(grace: int, s: State, st: Step)
    requires Inv(grace, s) && Enabled(grace, s, st) && grace > 0
    ensures Inv(grace, Taken(grace, s, st)) && Follows(s, Taken(grace, s, st))
  {
    match st
    case Disconnected(key) => DisconnectedKeepsInv(grace, s, key);
    case Reconnected(key) => EndedKeepsInv(grace, s, key, Cancelled);
    case StopAll => StopAllKeepsInv(grace, s);
    case Body(r) => BodyKeepsInv(grace, s, r);
    case _ =>
      var s' := Taken(grace, s, st);
      forall e | 0 <= e < |s'.regs| ensures RegSound(grace, s', e) { assert RegSound(grace, s, e); }
  }

  // ---------------------------------------------------------------- theorems

  /** Under every race each registration is consumed at most once, by replacement, cancellation or
      one firing, or is still the one pending entry of its key. A firing body always belongs to a registration of the same key that had waited
      its own grace. */
  lemma {:induction false} FatesAreFinal(grace: int, s: State, steps: seq<Step>)
    requires Inv(grace, s) && Legal(grace, s, steps) && grace > 0
    ensures Inv(grace, Run(grace, s, steps)) && Follows(s, Run(grace, s, steps))
    decreases |steps|
  {
    if steps != [] {
      StepKeepsInv(grace, s, steps[0]);
      FatesAreFinal(grace, Taken(grace, s, steps[0]), steps[1..]);
    }
  }

  predicate IsPending(s: State, key: string) {
    key in s.timers
  }

  /** What one step does to the pending announcement of `key`. */
  datatype Change = Nothing | Registers | Replaces | Cancels | Fires

  function ChangeOf(s: State, st: Step, key: string): Change {
    match st
    case Disconnected(k) => if k != key then Nothing else if key in s.timers then Replaces else Registers
    case Reconnected(k) => if k == key && key in s.timers then Cancels else Nothing
    case StopAll => if key in s.timers then Cancels else Nothing
    case Body(r) => if r < |s.regs| && s.regs[r].key == key && key in s.timers then Fires else Nothing
    case _ => Nothing
  }

  /** How often a run does it. */
  ghost function Times(grace: int, s: State, steps: seq<Step>, key: string, change: Change): nat
    requires Legal(grace, s, steps)
    decreases |steps|
  {
    if steps == [] then 0
    else (if ChangeOf(s, steps[0], key) == change then 1 else 0) + Times(grace, Taken(grace, s, steps[0]), steps[1..], key, change)
  }

  /** The disconnects of `key` in a run. */
  function DisconnectSteps(steps: seq<Step>, key: string): nat {
    if steps == [] then 0 else (if steps[0] == Disconnected(key) then 1 else 0) + DisconnectSteps(steps[1..], key)
  }

  lemma StepBalances(grace: int, s: State, st: Step, key: string)
    requires Inv(grace, s) && Enabled(grace, s, st)
    ensures
      var change := ChangeOf(s, st, key);
      var before, after := if IsPending(s, key) then 1 else 0, if IsPending(Taken(grace, s, st), key) then 1 else 0;
      && after == before + (if change == Registers then 1 else if change == Cancels || change == Fires then -1 else 0)
      && (st == Disconnected(key) <==> change == Registers || change == Replaces)
  {
  }

  /** Conservation under every race: each disconnect of a key is answered by exactly one of a
      replacement, a cancellation and a body that fires, or is the one still pending. */
  lemma {:induction false} DisconnectsAreConserved(grace: int, s: State, steps: seq<Step>, key: string)
    requires Inv(grace, s) && Legal(grace, s, steps) && grace > 0
    ensures
      (if IsPending(s, key) then 1 else 0) + DisconnectSteps(steps, key)
      == Times(grace, s, steps, key, Fires) + Times(grace, s, steps, key, Replaces) + Times(grace, s, steps, key, Cancels)
         + (if IsPending(Run(grace, s, steps), key) then 1 else 0)
    decreases |steps|
  {
    if steps != [] {
      StepKeepsInv(grace, s, steps[0]);
      StepBalances(grace, s, steps[0], key);
      DisconnectsAreConserved(grace, Taken(grace, s, steps[0]), steps[1..], key);
    }
  }

  /** So bodies that fire, plus the one announcement pending, never exceed disconnects. */
  lemma FiresNeverExceedDisconnects(grace: int, steps: seq<Step>, key: string)
    requires Legal(grace, INITIAL, steps) && grace > 0
    ensures Times(grace, INITIAL, steps, key, Fires) + (if IsPending(Run(grace, INITIAL, steps), key) then 1 else 0)
         <= DisconnectSteps(steps, key)
  {
    DisconnectsAreConserved(grace, INITIAL, steps, key);
  }

  ghost predicate NoDisconnect(key: string, steps: seq<Step>) {
    forall i :: 0 <= i < |steps| ==> steps[i] != Disconnected(key)
  }

  /** After a reconnect no body decides to fire for that key until its next disconnect, even one
      already waiting for the lock. */
  lemma {:induction false} ReconnectSilences(grace: int, s: State, key: string, steps: seq<Step>)
    requires Inv(grace, s) && key !in s.timers && grace > 0
    requires Legal(grace, s, steps) && NoDisconnect(key, steps)
    ensures key !in Run(grace, s, steps).timers
    ensures forall e :: 0 <= e < |s.regs| && s.regs[e].key == key ==>
      e < |Run(grace, s, steps).regs| && Run(grace, s, steps).regs[e].fate == s.regs[e].fate
    decreases |steps|
  {
    forall e | 0 <= e < |s.regs| && s.regs[e].key == key ensures s.regs[e].fate != Pending {
      assert RegSound(grace, s, e);
    }
    FatesAreFinal(grace, s, steps);
    if steps != [] {
      assert steps[0] != Disconnected(key);
      StepKeepsInv(grace, s, steps[0]);
      var s' := Taken(grace, s, steps[0]);
      assert key !in s'.timers;
      assert forall i :: 0 <= i < |steps[1..]| ==> steps[1..][i] == steps[i + 1];
      ReconnectSilences(grace, s', key, steps[1..]);
    }
  }

  /** A timer of `key` other than the pending one that may still run its body before a registration made
      now has had its grace: its body waits for the lock, or it lost its registration to another body
      without being stopped and was started earlier. */
  predicate IsStray(s: State, key: string, r: nat) {
    && r < |s.regs| && s.regs[r].key == key
    && (s.regs[r].timer == Waiting
        || (s.regs[r].timer == Armed && s.regs[r].at < s.clock && !(key in s.timers && s.timers[key] == r)))
  }

  /** Registration `e` fired, if at all, after its grace. */
  ghost predicate GraceKept(grace: int, s: State, e: nat) {
    e < |s.regs| && s.regs[e].fate.Fired? ==> s.regs[e].at + grace <= s.regs[e].fate.at
  }

  predicate CanRun(reg: Registration, key: string) {
    reg.key == key && (reg.timer == Armed || reg.timer == Waiting)
  }

  /** No timer of its key that can still run was started before `e`. */
  ghost predicate Undisturbed(s: State, e: nat) {
    e < |s.regs| && forall r :: 0 <= r < |s.regs| && CanRun(s.regs[r], s.regs[e].key) ==> s.regs[e].at <= s.regs[r].at
  }

  lemma StepKeepsUndisturbed(grace: int, s: State, st: Step, e: nat)
    requires Inv(grace, s) && Enabled(grace, s, st) && grace > 0 && Undisturbed(s, e) && GraceKept(grace, s, e)
    ensures Undisturbed(Taken(grace, s, st), e) && GraceKept(grace, Taken(grace, s, st), e)
  {
    assert RegSound(grace, s, e);
    if st.Body? { assert RegSound(grace, s, st.reg); }
  }

  lemma {:induction false} UndisturbedKeepsGrace(grace: int, s: State, steps: seq<Step>, e: nat)
    requires Inv(grace, s) && Legal(grace, s, steps) && grace > 0 && Undisturbed(s, e) && GraceKept(grace, s, e)
    ensures GraceKept(grace, Run(grace, s, steps), e)
    decreases |steps|
  {
    if steps != [] {
      StepKeepsInv(grace, s, steps[0]);
      StepKeepsUndisturbed(grace, s, steps[0], e);
      UndisturbedKeepsGrace(grace, Taken(grace, s, steps[0]), steps[1..], e);
    }
  }

  ghost predicate AlwaysKept(grace: int, s: State, e: nat) {
    forall steps :: Legal(grace, s, steps) ==> GraceKept(grace, Run(grace, s, steps), e)
  }

  /** The grace of a disconnect is kept on every continuation if and only if no stray timer of its key is
      about at that moment. */
  lemma GraceKeptExactly(grace: int, s: State, key: string)
    requires Inv(grace, s) && grace > 0
    ensures AlwaysKept(grace, Taken(grace, s, Disconnected(key)), |s.regs|) <==> !exists r :: IsStray(s, key, r)
  {
    var s', e := Taken(grace, s, Disconnected(key)), |s.regs|;
    StepKeepsInv(grace, s, Disconnected(key));
    if r :| IsStray(s, key, r) {
      StrayFiresEarly(grace, s, key, r);
    } else {
      NoStrayUndisturbed(grace, s, key);
      forall steps | Legal(grace, s', steps) ensures GraceKept(grace, Run(grace, s', steps), e) {
        UndisturbedKeepsGrace(grace, s', steps, e);
      }
    }
  }

  lemma NoStrayUndisturbed(grace: int, s: State, key: string)
    requires Inv(grace, s) && !exists r :: IsStray(s, key, r)
    ensures Undisturbed(Taken(grace, s, Disconnected(key)), |s.regs|)
  {
    var s', e := Taken(grace, s, Disconnected(key)), |s.regs|;
    forall r | 0 <= r < |s'.regs| && CanRun(s'.regs[r], key)
      ensures s'.regs[e].at <= s'.regs[r].at
    {
      if r < e {
        assert !IsStray(s, key, r);
        assert RegSound(grace, s, r);
      }
    }
  }

  lemma RunTwo(grace: int, s: State, a: Step, b: Step)
    requires Enabled(grace, s, a) && Enabled(grace, Taken(grace, s, a), b)
    ensures Legal(grace, s, [a, b]) && Run(grace, s, [a, b]) == Taken(grace, Taken(grace, s, a), b)
  {
    var s1 := Taken(grace, s, a);
    assert [a, b][1..] == [b] && [b][1..] == [];
    assert Legal(grace, Taken(grace, s1, b), []) && Legal(grace, s1, [b]) && Run(grace, s1, [b]) == Taken(grace, s1, b);
  }

  /** Any stray timer can announce the new registration before its grace is over. */
  lemma StrayFiresEarly(grace: int, s: State, key: string, r: nat)
    requires Inv(grace, s) && grace > 0 && IsStray(s, key, r)
    ensures !AlwaysKept(grace, Taken(grace, s, Disconnected(key)), |s.regs|)
  {
    var s', e := Taken(grace, s, Disconnected(key)), |s.regs|;
    StepKeepsInv(grace, s, Disconnected(key));
    assert s'.timers[key] == e && s'.regs[e].at == s.clock;
    if s.regs[r].timer == Waiting {
      assert s'.regs[r].timer == Waiting;
      assert Legal(grace, Taken(grace, s', Body(r)), []);
      assert [Body(r)][1..] == [];
      assert Legal(grace, s', [Body(r)]);
      assert !GraceKept(grace, Run(grace, s', [Body(r)]), e);
    } else {
      StrayExpires(grace, s, key, r);
    }
  }

  /** An unstopped timer that lost its registration first has to run out. */
  lemma StrayExpires(grace: int, s: State, key: string, r: nat)
    requires Inv(grace, s) && grace > 0 && IsStray(s, key, r) && s.regs[r].timer == Armed
    ensures !AlwaysKept(grace, Taken(grace, s, Disconnected(key)), |s.regs|)
  {
    var s', e := Taken(grace, s, Disconnected(key)), |s.regs|;
    var now := if s.regs[r].at + grace < s.clock then s.clock else s.regs[r].at + grace;
    assert s'.regs[r] == s.regs[r];
    var s1 := Taken(grace, s', Tick(now));
    var s2 := Taken(grace, s1, Expire(r));
    var s3 := Taken(grace, s2, Body(r));
    assert s3.regs[e].fate == Fired(r, now);
    RunTwo(grace, s1, Expire(r), Body(r));
    var steps := [Tick(now), Expire(r), Body(r)];
    assert steps[1..] == [Expire(r), Body(r)];
    assert Legal(grace, s', steps) && Run(grace, s', steps) == s3;
    assert !GraceKept(grace, Run(grace, s', steps), e);
  }

  /** A body that lost its registration to a second disconnect announces the newer one at once, and
      leaves its timer running: a stray in turn. */
  lemma StaleBodyFiresEarly(grace: int)
    requires grace > 0
    ensures
      var steps := [Disconnected("k"), Tick(grace), Expire(0), Disconnected("k"), Body(0)];
      && Legal(grace, INITIAL, steps)
      && var s := Run(grace, INITIAL, steps);
         |s.regs| == 2 && s.regs[1].at == grace && s.regs[1].fate == Fired(0, grace) && s.regs[1].timer == Armed
  {
    var s1 := Taken(grace, INITIAL, Disconnected("k"));
    var s2 := Taken(grace, s1, Tick(grace));
    var s3 := Taken(grace, s2, Expire(0));
    var s4 := Taken(grace, s3, Disconnected("k"));
    assert s4.timers["k"] == 1 && |s4.regs| == 2 && s4.regs[0].timer == Waiting;
    var s5 := Taken(grace, s4, Body(0));
    assert Legal(grace, s5, []);
    var r4 := [Body(0)];
    var r3 := [Disconnected("k"), Body(0)];
    var r2 := [Expire(0), Disconnected("k"), Body(0)];
    var r1 := [Tick(grace), Expire(0), Disconnected("k"), Body(0)];
    assert r4[1..] == [] && r3[1..] == r4 && r2[1..] == r3 && r1[1..] == r2;
    assert Legal(grace, s4, r4) && Run(grace, s4, r4) == s5;
    assert Legal(grace, s3, r3) && Run(grace, s3, r3) == s5;
    assert Legal(grace, s2, r2) && Run(grace, s2, r2) == s5;
    assert Legal(grace, s1, r1) && Run(grace, s1, r1) == s5;
    var r0 := [Disconnected("k"), Tick(grace), Expire(0), Disconnected("k"), Body(0)];
    assert r0[1..] == r1;
  }

  // --------------------------------------------------------------- no strays

  /** Only the pending timer of `key` can still run. */
  ghost predicate Tidy(s: State, key: string) {
    forall r :: 0 <= r < |s.regs| && CanRun(s.regs[r], key) ==> key in s.timers && s.timers[key] == r
  }

  /** No body of `key` waits for the lock when another step is taken. */
  ghost predicate Prompt(s: State, st: Step, key: string) {
    forall r :: 0 <= r < |s.regs| && s.regs[r].key == key && s.regs[r].timer == Waiting ==> st == Body(r)
  }

  ghost predicate PromptAll(grace: int, s: State, steps: seq<Step>, key: string)
    requires Legal(grace, s, steps)
    decreases |steps|
  {
    steps != [] ==> Prompt(s, steps[0], key) && PromptAll(grace, Taken(grace, s, steps[0]), steps[1..], key)
  }

  lemma PromptStepKeepsTidy(grace: int, s: State, st: Step, key: string)
    requires Inv(grace, s) && Enabled(grace, s, st) && Tidy(s, key) && Prompt(s, st, key)
    ensures Tidy(Taken(grace, s, st), key)
  {
    var s' := Taken(grace, s, st);
    forall r | 0 <= r < |s'.regs| && CanRun(s'.regs[r], key) ensures key in s'.timers && s'.timers[key] == r {
      if r < |s.regs| { assert RegSound(grace, s, r); }
    }
  }

  /** While bodies get the lock as soon as they ask for it, every timer that lost its registration was stopped:
      a disconnect always keeps its grace, and after a reconnect no timer of the key is left to run. */
  lemma {:induction false} PromptBodiesLeaveNoStray(grace: int, steps: seq<Step>, key: string)
    requires grace > 0 && Legal(grace, INITIAL, steps) && PromptAll(grace, INITIAL, steps, key)
    ensures
      var s := Run(grace, INITIAL, steps);
      Inv(grace, s) && Tidy(s, key) && (key !in s.timers ==> forall r :: 0 <= r < |s.regs| ==> !CanRun(s.regs[r], key))
  {
    PromptRunKeepsTidy(grace, INITIAL, steps, key);
  }

  lemma {:induction false} PromptRunKeepsTidy(grace: int, s: State, steps: seq<Step>, key: string)
    requires grace > 0 && Inv(grace, s) && Tidy(s, key) && Legal(grace, s, steps) && PromptAll(grace, s, steps, key)
    ensures Inv(grace, Run(grace, s, steps)) && Tidy(Run(grace, s, steps), key)
    decreases |steps|
  {
    if steps != [] {
      StepKeepsInv(grace, s, steps[0]);
      PromptStepKeepsTidy(grace, s, steps[0], key);
      PromptRunKeepsTidy(grace, Taken(grace, s, steps[0]), steps[1..], key);
    }
  }

  /** Stop reaches every armed timer it is meant for: after a reconnect the key's pending timer will not run,
      and after StopAll no pending timer of any key will. */
  lemma StopReachesArmed(grace: int, s: State, key: string, r: nat)
    requires Inv(grace, s) && r < |s.regs| && s.regs[r].fate == Pending && s.regs[r].timer == Armed
    ensures s.regs[r].key == key ==> Taken(grace, s, Reconnected(key)).regs[r] == s.regs[r].(timer := Stopped, fate := Cancelled)
    ensures s.regs[r].key == key ==> Taken(grace, s, Disconnected(key)).regs[r] == s.regs[r].(timer := Stopped, fate := Replaced)
    ensures Taken(grace, s, StopAll).regs[r] == s.regs[r].(timer := Stopped, fate := Cancelled)
  {
    assert RegSound(grace, s, r);
  }

  /** A body runs once: it is over however it decided, and no later step brings it back. */
  lemma {:induction false} BodyRunsOnce(grace: int, s: State, r: nat, steps: seq<Step>)
    requires Enabled(grace, s, Body(r)) && Legal(grace, Taken(grace, s, Body(r)), steps)
    ensures
      var t := Run(grace, Taken(grace, s, Body(r)), steps);
      r < |t.regs| && t.regs[r].timer == Over && !Enabled(grace, t, Body(r)) && !Enabled(grace, t, Expire(r))
  {
    OverStaysOver(grace, Taken(grace, s, Body(r)), steps, r);
  }

  lemma {:induction false} OverStaysOver(grace: int, s: State, steps: seq<Step>, r: nat)
    requires Legal(grace, s, steps) && r < |s.regs| && s.regs[r].timer == Over
    ensures r < |Run(grace, s, steps).regs| && Run(grace, s, steps).regs[r].timer == Over
    decreases |steps|
  {
    if steps != [] { OverStaysOver(grace, Taken(grace, s, steps[0]), steps[1..], r); }
  }
}
