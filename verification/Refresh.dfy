/** Refresh-token rotation: concurrent callers, each looking up, deciding and swapping in separate
    store calls. Tokens stand for their hashes; new ones are fresh. */
module Refresh {
  import opened Ports

  /** A session row, with every token it ever had, oldest first. */
  datatype Session = Session(hash: nat, rotatedFrom: Option<nat>, revoked: bool, expiresAt: int, chain: seq<nat>)

  datatype Rejection = Transient | Unknown | Reused | Revoked | Expired | Conflict

  datatype Stage =
    | Start
    | Loaded(id: nat)
    | Missing
    | ReuseFound(id: nat)
    | Won(token: nat)
    | Rejected(why: Rejection)

  datatype Call = Call(token: nat, stage: Stage)

  datatype Rotation = Rotation(call: nat, id: nat, was: nat, next: nat)

  datatype State = State(sessions: map<nat, Session>, minted: nat, calls: seq<Call>, log: seq<Rotation>)

  const INITIAL: State := State(map[], 0, [], [])

  datatype Step =
    | Mint(id: nat, expiresAt: int)
    | Logout(id: nat)
    | Begin(token: nat)
    | Load(call: nat, found: Option<nat>, now: int)
    | LoadFails(call: nat)
    | LookupOld(call: nat, found: Option<nat>)
    | LookupOldFails(call: nat)
    | RevokeReused(call: nat, reached: bool)
    | Rotate(call: nat, answered: bool)
    | RotateFails(call: nat)

  predicate At(s: State, call: nat, stage: Stage) {
    call < |s.calls| && s.calls[call].stage == stage
  }

  /** `found` answers the lookup of the session whose current token is `t`. */
  ghost predicate FindsCurrent(s: State, t: nat, found: Option<nat>) {
    if found.Some? then found.value in s.sessions && s.sessions[found.value].hash == t
    else forall id :: id in s.sessions ==> s.sessions[id].hash != t
  }

  /** `found` answers the lookup of the live session last rotated away from `t`. */
  ghost predicate FindsRotated(s: State, t: nat, found: Option<nat>) {
    if found.Some? then found.value in s.sessions && RotatedFrom(s.sessions[found.value], t)
    else forall id :: id in s.sessions ==> !RotatedFrom(s.sessions[id], t)
  }

  predicate RotatedFrom(x: Session, t: nat) {
    x.rotatedFrom == Some(t) && !x.revoked
  }

  ghost predicate Enabled(s: State, st: Step) {
    match st
    case Mint(id, _) => id !in s.sessions
    case Logout(id) => id in s.sessions
    case Begin(_) => true
    case Load(call, found, _) => At(s, call, Start) && FindsCurrent(s, s.calls[call].token, found)
    case LoadFails(call) => At(s, call, Start)
    case LookupOld(call, found) =>
      At(s, call, Missing) && FindsRotated(s, s.calls[call].token, found)
    case LookupOldFails(call) => At(s, call, Missing)
    case RevokeReused(call, _) => call < |s.calls| && s.calls[call].stage.ReuseFound? && s.calls[call].stage.id in s.sessions
    case Rotate(call, _) => call < |s.calls| && s.calls[call].stage.Loaded? && s.calls[call].stage.id in s.sessions
    case RotateFails(call) => call < |s.calls| && s.calls[call].stage.Loaded?
  }

  function Moved(s: State, call: nat, stage: Stage): State
    requires call < |s.calls|
  {
    s.(calls := s.calls[call := s.calls[call].(stage := stage)])
  }

  function Revoke(s: State, id: nat): State
    requires id in s.sessions
  {
    s.(sessions := s.sessions[id := s.sessions[id].(revoked := true)])
  }

  /** The compare-and-swap goes through only if the old hash is still current and the row is live. */
  predicate Swaps(s: State, id: nat, was: nat)
    requires id in s.sessions
  {
    s.sessions[id].hash == was && !s.sessions[id].revoked
  }

  function Extended(x: Session, token: nat): Session {
    x.(hash := token, rotatedFrom := Some(x.hash), chain := x.chain + [token])
  }

  function Swapped(s: State, call: nat, id: nat, was: nat): State
    requires id in s.sessions
  {
    if !Swaps(s, id, was) then s.(minted := s.minted + 1)
    else
      s.(sessions := s.sessions[id := Extended(s.sessions[id], s.minted)],
         minted := s.minted + 1, log := s.log + [Rotation(call, id, was, s.minted)])
  }

  ghost function Taken(s: State, st: Step): State
    requires Enabled(s, st)
  {
    match st
    case Mint(id, expiresAt) =>
      s.(sessions := s.sessions[id := Session(s.minted, None, false, expiresAt, [s.minted])], minted := s.minted + 1)
    case Logout(id) => Revoke(s, id)
    case Begin(token) => s.(calls := s.calls + [Call(token, Start)])
    case Load(call, found, now) =>
      if found.None? then Moved(s, call, Missing)
      else
        var x := s.sessions[found.value];
        Moved(s, call, if x.revoked then Rejected(Revoked) else if now > x.expiresAt then Rejected(Expired) else Loaded(found.value))
    case LoadFails(call) => Moved(s, call, Rejected(Transient))
    case LookupOld(call, found) => Moved(s, call, if found.Some? then ReuseFound(found.value) else Rejected(Unknown))
    case LookupOldFails(call) => Moved(s, call, Rejected(Unknown))
    case RevokeReused(call, reached) =>
      Moved(if reached then Revoke(s, s.calls[call].stage.id) else s, call, Rejected(Reused))
    case Rotate(call, answered) =>
      var id, token := s.calls[call].stage.id, s.calls[call].token;
      Moved(Swapped(s, call, id, token), call,
            if !answered then Rejected(Transient) else if Swaps(s, id, token) then Won(s.minted) else Rejected(Conflict))
    case RotateFails(call) => Moved(s, call, Rejected(Transient))
  }

  ghost predicate Legal(s: State, steps: seq<Step>)
    decreases |steps|
  {
    steps != [] ==> Enabled(s, steps[0]) && Legal(Taken(s, steps[0]), steps[1..])
  }

  ghost function Run(s: State, steps: seq<Step>): State
    requires Legal(s, steps)
    decreases |steps|
  {
    if steps == [] then s else Run(Taken(s, steps[0]), steps[1..])
  }

  // -------------------------------------------------------------- invariant

  ghost predicate SessionSound(x: Session, minted: nat) {
    && x.chain != [] && x.hash == x.chain[|x.chain| - 1]
    && x.rotatedFrom == (if |x.chain| >= 2 then Some(x.chain[|x.chain| - 2]) else None)
    && (forall p, q :: 0 <= p < q < |x.chain| ==> x.chain[p] != x.chain[q])
    && (forall p :: 0 <= p < |x.chain| ==> x.chain[p] < minted)
  }

  ghost predicate LinkAt(chain: seq<nat>, p: int, r: Rotation) {
    0 <= p < |chain| - 1 && chain[p] == r.was && chain[p + 1] == r.next
  }

  /** A logged rotation is one link of its session's chain. */
  ghost predicate Link(sessions: map<nat, Session>, r: Rotation) {
    r.id in sessions && exists p :: LinkAt(sessions[r.id].chain, p, r)
  }

  ghost predicate Apart(a: seq<nat>, b: seq<nat>) {
    forall t :: t in a ==> t !in b
  }

  ghost predicate RowsSound(sessions: map<nat, Session>, minted: nat) {
    forall id :: id in sessions ==> SessionSound(sessions[id], minted)
  }

  ghost predicate RowsApart(sessions: map<nat, Session>) {
    forall a, b :: a in sessions && b in sessions && a != b ==> Apart(sessions[a].chain, sessions[b].chain)
  }

  ghost predicate LogSound(sessions: map<nat, Session>, log: seq<Rotation>) {
    && (forall i :: 0 <= i < |log| ==> Link(sessions, log[i]))
    && (forall i, j :: 0 <= i < j < |log| ==> log[i].was != log[j].was)
  }

  ghost predicate Inv(s: State) {
    RowsSound(s.sessions, s.minted) && RowsApart(s.sessions) && LogSound(s.sessions, s.log) && WinnersLogged(s)
  }

  ghost predicate WonBy(log: seq<Rotation>, i: int, call: nat, was: nat, next: nat) {
    0 <= i < |log| && log[i].call == call && log[i].was == was && log[i].next == next
  }

  /** A call that answered with a new token made a rotation of its own. */
  ghost predicate WinnersLogged(s: State) {
    forall c :: 0 <= c < |s.calls| && s.calls[c].stage.Won? ==>
      exists i :: WonBy(s.log, i, c, s.calls[c].token, s.calls[c].stage.token)
  }

  /** Chains only grow, and a revoked session never changes again. */
  ghost predicate Follows(s: State, s': State) {
    && s.log <= s'.log
    && forall id :: id in s.sessions ==>
         && id in s'.sessions
         && s.sessions[id].chain <= s'.sessions[id].chain
         && (s.sessions[id].revoked ==> s'.sessions[id] == s.sessions[id])
  }

  lemma NotYetMinted(x: Session, minted: nat)
    requires SessionSound(x, minted)
    ensures minted !in x.chain
  {
  }

  lemma ExtendedSound(x: Session, minted: nat)
    requires SessionSound(x, minted)
    ensures SessionSound(Extended(x, minted), minted + 1)
  {
    var chain := x.chain + [minted];
    assert chain[|chain| - 2] == x.hash;
  }

  lemma ExtendedApart(a: seq<nat>, b: seq<nat>, token: nat)
    requires Apart(a, b) && Apart(b, a) && token !in b
    ensures Apart(a + [token], b) && Apart(b, a + [token])
  {
  }

  /** Putting in a row whose chain grows, or leaving it out of the way, keeps every logged link. */
  lemma LinkStays(before: map<nat, Session>, after: map<nat, Session>, r: Rotation)
    requires Link(before, r) && r.id in after && before[r.id].chain <= after[r.id].chain
    ensures Link(after, r)
  {
    var p :| LinkAt(before[r.id].chain, p, r);
    assert LinkAt(after[r.id].chain, p, r);
  }

  lemma LogStays(before: map<nat, Session>, after: map<nat, Session>, log: seq<Rotation>)
    requires LogSound(before, log)
    requires forall id :: id in before ==> id in after && before[id].chain <= after[id].chain
    ensures LogSound(after, log)
  {
    forall i | 0 <= i < |log| ensures Link(after, log[i]) { LinkStays(before, after, log[i]); }
  }

  lemma RevokeKeepsInv(s: State, id: nat)
    requires Inv(s) && id in s.sessions
    ensures Inv(Revoke(s, id)) && Follows(s, Revoke(s, id))
  {
    RevokeKeepsRows(s.sessions, s.minted, id);
    LogStays(s.sessions, Revoke(s, id).sessions, s.log);
  }

  lemma RevokeKeepsRows(sessions: map<nat, Session>, minted: nat, id: nat)
    requires RowsSound(sessions, minted) && RowsApart(sessions) && id in sessions
    ensures
      var after := sessions[id := sessions[id].(revoked := true)];
      RowsSound(after, minted) && RowsApart(after)
  {
    var after := sessions[id := sessions[id].(revoked := true)];
    forall a | a in after ensures SessionSound(after[a], minted) { assert SessionSound(sessions[a], minted); }
    forall a, b | a in after && b in after && a != b ensures Apart(after[a].chain, after[b].chain) {
      assert Apart(sessions[a].chain, sessions[b].chain);
      assert after[a].chain == sessions[a].chain && after[b].chain == sessions[b].chain;
    }
  }

  lemma MintKeepsInv(s: State, id: nat, expiresAt: int)
    requires Inv(s) && id !in s.sessions
    ensures Inv(Taken(s, Mint(id, expiresAt))) && Follows(s, Taken(s, Mint(id, expiresAt)))
  {
    MintKeepsRows(s.sessions, s.minted, id, expiresAt);
    LogStays(s.sessions, Taken(s, Mint(id, expiresAt)).sessions, s.log);
  }

  lemma MintKeepsRows(sessions: map<nat, Session>, minted: nat, id: nat, expiresAt: int)
    requires RowsSound(sessions, minted) && RowsApart(sessions) && id !in sessions
    ensures
      var after := sessions[id := Session(minted, None, false, expiresAt, [minted])];
      RowsSound(after, minted + 1) && RowsApart(after)
  {
    var after := sessions[id := Session(minted, None, false, expiresAt, [minted])];
    forall a, b | a in after && b in after && a != b ensures Apart(after[a].chain, after[b].chain) {
      if a == id {
        NotYetMinted(sessions[b], minted);
      } else if b == id {
        NotYetMinted(sessions[a], minted);
      }
    }
  }

  lemma SwapKeepsRows(sessions: map<nat, Session>, minted: nat, id: nat)
    requires RowsSound(sessions, minted) && RowsApart(sessions) && id in sessions
    ensures
      var after := sessions[id := Extended(sessions[id], minted)];
      RowsSound(after, minted + 1) && RowsApart(after)
  {
    var after := sessions[id := Extended(sessions[id], minted)];
    ExtendedSound(sessions[id], minted);
    forall a, b | a in after && b in after && a != b ensures Apart(after[a].chain, after[b].chain) {
      assert Apart(sessions[a].chain, sessions[b].chain) && Apart(sessions[b].chain, sessions[a].chain);
      NotYetMinted(sessions[a], minted);
      NotYetMinted(sessions[b], minted);
      if a == id {
        ExtendedApart(sessions[a].chain, sessions[b].chain, minted);
      } else if b == id {
        ExtendedApart(sessions[b].chain, sessions[a].chain, minted);
      }
    }
  }

  lemma SwapKeepsLog(s: State, call: nat, id: nat, was: nat)
    requires Inv(s) && id in s.sessions && Swaps(s, id, was)
    ensures LogSound(Swapped(s, call, id, was).sessions, Swapped(s, call, id, was).log)
  {
    var x, s' := s.sessions[id], Swapped(s, call, id, was);
    LogStays(s.sessions, s'.sessions, s.log);
    assert SessionSound(x, s.minted);
    assert LinkAt(s'.sessions[id].chain, |x.chain| - 1, Rotation(call, id, was, s.minted));
    forall i | 0 <= i < |s.log| ensures s.log[i].was != was { OldIsPast(s, i, id); }
  }

  lemma LoggedStays(before: seq<Rotation>, after: seq<Rotation>, call: nat, was: nat, next: nat)
    requires before <= after && exists i :: WonBy(before, i, call, was, next)
    ensures exists i :: WonBy(after, i, call, was, next)
  {
    var i :| WonBy(before, i, call, was, next);
    assert WonBy(after, i, call, was, next);
  }

  lemma SwappedKeepsInv(s: State, call: nat, id: nat, was: nat)
    requires Inv(s) && id in s.sessions
    ensures Inv(Swapped(s, call, id, was)) && Follows(s, Swapped(s, call, id, was))
  {
    var s' := Swapped(s, call, id, was);
    if Swaps(s, id, was) {
      SwapKeepsRows(s.sessions, s.minted, id);
      SwapKeepsLog(s, call, id, was);
    }
    forall c | 0 <= c < |s.calls| && s.calls[c].stage.Won?
      ensures exists i :: WonBy(s'.log, i, c, s.calls[c].token, s.calls[c].stage.token)
    {
      LoggedStays(s.log, s'.log, c, s.calls[c].token, s.calls[c].stage.token);
    }
  }

  /** A token that was rotated away is nobody's current token. */
  lemma OldIsPast(s: State, i: nat, id: nat)
    requires Inv(s) && i < |s.log| && id in s.sessions
    ensures s.log[i].was != s.sessions[id].hash
  {
    var r := s.log[i];
    assert Link(s.sessions, r);
    assert SessionSound(s.sessions[id], s.minted);
    if r.id != id {
      assert Apart(s.sessions[r.id].chain, s.sessions[id].chain);
      assert r.was in s.sessions[r.id].chain;
      assert s.sessions[id].hash in s.sessions[id].chain;
    }
  }

  lemma MovedKeepsInv(s: State, call: nat, stage: Stage)
    requires Inv(s) && call < |s.calls|
    requires stage.Won? ==> exists i :: WonBy(s.log, i, call, s.calls[call].token, stage.token)
    ensures Inv(Moved(s, call, stage))
  {
  }

  lemma StepKeepsInv(s: State, st: Step)
    requires Inv(s) && Enabled(s, st)
    ensures Inv(Taken(s, st)) && Follows(s, Taken(s, st))
  {
    match st
    case Mint(id, expiresAt) => MintKeepsInv(s, id, expiresAt);
    case Logout(id) => RevokeKeepsInv(s, id);
    case Begin(_) =>
    case RevokeReused(call, reached) =>
      var id := s.calls[call].stage.id;
      RevokeKeepsInv(s, id);
      MovedKeepsInv(if reached then Revoke(s, id) else s, call, Rejected(Reused));
    case Rotate(call, answered) =>
      RotateKeepsInv(s, call, answered);
    case _ => MovedKeepsInv(s, st.call, Taken(s, st).calls[st.call].stage);
  }

  lemma RotateKeepsInv(s: State, call: nat, answered: bool)
    requires Inv(s) && Enabled(s, Rotate(call, answered))
    ensures Inv(Taken(s, Rotate(call, answered))) && Follows(s, Taken(s, Rotate(call, answered)))
  {
    var id, token := s.calls[call].stage.id, s.calls[call].token;
    var s' := Swapped(s, call, id, token);
    SwappedKeepsInv(s, call, id, token);
    if Swaps(s, id, token) { assert WonBy(s'.log, |s.log|, call, token, s.minted); }
    MovedKeepsInv(s', call, Taken(s, Rotate(call, answered)).calls[call].stage);
  }

  lemma FollowsTransitive(a: State, b: State, c: State)
    requires Follows(a, b) && Follows(b, c)
    ensures Follows(a, c)
  {
    forall id | id in a.sessions
      ensures id in c.sessions && a.sessions[id].chain <= c.sessions[id].chain
    {
      assert id in b.sessions && b.sessions[id].chain <= c.sessions[id].chain;
    }
  }

  // ---------------------------------------------------------------- theorems

  /** In every interleaving of any number of calls, with any of their store calls failing or losing
      its answer: a token rotates a session at most once, the rotations are consecutive links of one
      chain per session, chains only grow, and once revoked, by logout or by reuse detection, a session
      never changes again, even for a call that had already loaded it. */
  lemma {:induction false} RotationIsLinear(s: State, steps: seq<Step>)
    requires Inv(s) && Legal(s, steps)
    ensures Inv(Run(s, steps)) && Follows(s, Run(s, steps))
    decreases |steps|
  {
    if steps != [] {
      var s' := Taken(s, steps[0]);
      StepKeepsInv(s, steps[0]);
      RotationIsLinear(s', steps[1..]);
      FollowsTransitive(s, s', Run(s', steps[1..]));
    }
  }

  lemma InitialInv()
    ensures Inv(INITIAL)
  {
  }

  /** However many callers present a token concurrently, at most one of them is answered with a new one. */
  lemma OneWinnerPerToken(steps: seq<Step>, a: nat, b: nat)
    requires Legal(INITIAL, steps)
    requires a < |Run(INITIAL, steps).calls| && b < |Run(INITIAL, steps).calls|
    requires var calls := Run(INITIAL, steps).calls;
      calls[a].token == calls[b].token && calls[a].stage.Won? && calls[b].stage.Won?
    ensures a == b
  {
    InitialInv();
    RotationIsLinear(INITIAL, steps);
    var s := Run(INITIAL, steps);
    var i :| WonBy(s.log, i, a, s.calls[a].token, s.calls[a].stage.token);
    var j :| WonBy(s.log, j, b, s.calls[b].token, s.calls[b].stage.token);
    assert i == j;
  }

  /** Which past tokens are recognised: presenting the token at position `p` of a live session's
      chain is looked up as current exactly at the last position, as reuse exactly at the one before
      it, and older tokens are simply unknown. So replaying a superseded token kills the session only
      if it was superseded once. */
  lemma ReuseDetectedExactly(s: State, id: nat, p: nat, found: Option<nat>, previous: Option<nat>)
    requires Inv(s) && id in s.sessions && !s.sessions[id].revoked && p < |s.sessions[id].chain|
    requires FindsCurrent(s, s.sessions[id].chain[p], found)
    requires FindsRotated(s, s.sessions[id].chain[p], previous)
    ensures found == (if p == |s.sessions[id].chain| - 1 then Some(id) else None)
    ensures previous == (if p + 2 == |s.sessions[id].chain| then Some(id) else None)
  {
    var chain := s.sessions[id].chain;
    var t := chain[p];
    assert t in chain;
    assert SessionSound(s.sessions[id], s.minted);
    forall a | a in s.sessions && a != id
      ensures s.sessions[a].hash != t && s.sessions[a].rotatedFrom != Some(t)
    {
      var y := s.sessions[a];
      assert SessionSound(y, s.minted) && Apart(chain, y.chain);
      assert y.hash in y.chain;
      if |y.chain| >= 2 { assert y.chain[|y.chain| - 2] in y.chain; }
    }
  }

  /** A doubly superseded token leaves the session untouched: the whole call only reads. */
  lemma OldReplayGoesUnnoticed(s: State, id: nat, p: nat, call: nat, now: int)
    requires Inv(s) && id in s.sessions && !s.sessions[id].revoked && p + 2 < |s.sessions[id].chain|
    requires At(s, call, Start) && s.calls[call].token == s.sessions[id].chain[p]
    ensures Enabled(s, Load(call, None, now))
    ensures Enabled(Taken(s, Load(call, None, now)), LookupOld(call, None))
    ensures
      var s' := Taken(Taken(s, Load(call, None, now)), LookupOld(call, None));
      s'.sessions == s.sessions && s'.calls[call].stage == Rejected(Unknown)
  {
    var t := s.sessions[id].chain[p];
    assert t in s.sessions[id].chain;
    assert SessionSound(s.sessions[id], s.minted);
    forall a | a in s.sessions ensures s.sessions[a].hash != t && s.sessions[a].rotatedFrom != Some(t) {
      var y := s.sessions[a];
      assert SessionSound(y, s.minted);
      if a != id { assert Apart(s.sessions[id].chain, y.chain); }
      assert y.hash in y.chain;
      if |y.chain| >= 2 { assert y.chain[|y.chain| - 2] in y.chain; }
    }
  }

  /** One rotation of session 0 by its owner, presenting its current token `t`. */
  function Refreshing(call: nat, t: nat): (steps: seq<Step>) {
    [Begin(t), Load(call, Some(0), 0), Rotate(call, true)]
  }

  lemma RefreshingRuns(s: State)
    requires 0 in s.sessions && !s.sessions[0].revoked && s.sessions[0].expiresAt >= 0
    ensures
      var steps := Refreshing(|s.calls|, s.sessions[0].hash);
      Legal(s, steps) && Run(s, steps).sessions == s.sessions[0 := Extended(s.sessions[0], s.minted)]
      && Run(s, steps).minted == s.minted + 1 && At(Run(s, steps), |s.calls|, Won(s.minted))
  {
    var n, t := |s.calls|, s.sessions[0].hash;
    var steps := Refreshing(n, t);
    var s1 := Taken(s, steps[0]);
    assert FindsCurrent(s1, t, Some(0)) && Enabled(s1, steps[1]);
    var s2 := Taken(s1, steps[1]);
    assert s2.calls[n] == Call(t, Loaded(0)) && s2.sessions == s.sessions && s2.minted == s.minted;
    assert Enabled(s2, steps[2]);
    var s3 := Taken(s2, steps[2]);
    assert s3.sessions == s.sessions[0 := Extended(s.sessions[0], s.minted)];
    assert steps[1..][1..] == [steps[2]] && steps[1..][0] == steps[1];
    assert [steps[2]][1..] == [] && Legal(s3, []) && Run(s3, []) == s3;
    assert Legal(s2, [steps[2]]) && Run(s2, [steps[2]]) == s3;
    assert Legal(s1, steps[1..]) && Run(s1, steps[1..]) == s3;
  }

  /** Two refreshes of a fresh session leave its first token doubly superseded, the smallest such state. */
  lemma DoublySupersededReachable()
    ensures exists minted: seq<Step>, first: seq<Step>, second: seq<Step> ::
      && Legal(INITIAL, minted) && Legal(Run(INITIAL, minted), first) && Legal(Run(Run(INITIAL, minted), first), second)
      && Run(Run(Run(INITIAL, minted), first), second).sessions == map[0 := Session(2, Some(1), false, 0, [0, 1, 2])]
  {
    var minted := [Mint(0, 0)];
    var s0 := Taken(INITIAL, minted[0]);
    assert Legal(s0, minted[1..]);
    assert Legal(INITIAL, minted) && Run(INITIAL, minted) == s0;
    RefreshingRuns(s0);
    var first := Refreshing(|s0.calls|, s0.sessions[0].hash);
    var s1 := Run(s0, first);
    assert s1.sessions[0] == Session(1, Some(0), false, 0, [0, 1]);
    RefreshingRuns(s1);
    var second := Refreshing(|s1.calls|, s1.sessions[0].hash);
    assert Run(s1, second).sessions[0] == Session(2, Some(1), false, 0, [0, 1, 2]);
    assert Run(s1, second).sessions.Keys == {0};
    assert Run(s1, second).sessions == map[0 := Session(2, Some(1), false, 0, [0, 1, 2])];
    assert Legal(Run(Run(INITIAL, minted), first), second);
  }

  // ------------------------------------------------ what ends a session, ends it

  /** A call presenting `token` was answered with a new one. */
  ghost predicate WonWith(s: State, call: nat, token: nat) {
    call < |s.calls| && s.calls[call].token == token && s.calls[call].stage.Won?
  }

  lemma RevokedStepIsDead(s: State, st: Step, id: nat, call: nat, token: nat)
    requires Inv(s) && Enabled(s, st) && id in s.sessions && s.sessions[id].revoked && token in s.sessions[id].chain
    ensures WonWith(Taken(s, st), call, token) ==> WonWith(s, call, token)
  {
    if st.Rotate? && st.call == call && s.calls[call].token == token {
      var other := s.calls[call].stage.id;
      assert SessionSound(s.sessions[other], s.minted);
      assert s.sessions[other].hash in s.sessions[other].chain;
      if other != id { assert Apart(s.sessions[id].chain, s.sessions[other].chain); }
      assert !Swaps(s, other, token);
    }
  }

  /** A revoked session is dead: on every continuation its row stays as it is, and no call presenting any token
      it ever had wins, not even one that had loaded it before. */
  lemma {:induction false} RevokedIsDead(s: State, steps: seq<Step>, id: nat, call: nat, token: nat)
    requires Inv(s) && Legal(s, steps) && id in s.sessions && s.sessions[id].revoked && token in s.sessions[id].chain
    ensures id in Run(s, steps).sessions && Run(s, steps).sessions[id] == s.sessions[id]
    ensures WonWith(Run(s, steps), call, token) ==> WonWith(s, call, token)
    decreases |steps|
  {
    if steps != [] {
      StepKeepsInv(s, steps[0]);
      RevokedStepIsDead(s, steps[0], id, call, token);
      RevokedIsDead(Taken(s, steps[0]), steps[1..], id, call, token);
    }
  }

  /** The steps of a call that presents a superseded token. */
  function Replay(call: nat, id: nat, now: int): seq<Step> {
    [Load(call, None, now), LookupOld(call, Some(id)), RevokeReused(call, true)]
  }

  /** Presenting the immediate predecessor of the current token, once the revocation reaches the store, is
      answered as reuse and kills the session, whatever tokens it had. */
  lemma ReuseKillsSession(s: State, id: nat, call: nat, now: int)
    requires Inv(s) && id in s.sessions && !s.sessions[id].revoked && |s.sessions[id].chain| >= 2
    requires At(s, call, Start) && s.calls[call].token == s.sessions[id].chain[|s.sessions[id].chain| - 2]
    ensures Legal(s, Replay(call, id, now))
    ensures
      var s' := Run(s, Replay(call, id, now));
      && Inv(s') && id in s'.sessions && s'.sessions[id] == s.sessions[id].(revoked := true)
      && call < |s'.calls| && s'.calls[call].stage == Rejected(Reused)
  {
    var a, b, c := Load(call, None, now), LookupOld(call, Some(id)), RevokeReused(call, true);
    PredecessorIsFound(s, id);
    var s1 := Taken(s, a);
    assert s1 == Moved(s, call, Missing);
    var s2 := Taken(s1, b);
    assert s2 == Moved(s1, call, ReuseFound(id));
    StepKeepsInv(s, a);
    StepKeepsInv(s1, b);
    StepKeepsInv(s2, c);
    RunThree(s, s1, s2, a, b, c);
  }

  lemma RunThree(s: State, s1: State, s2: State, a: Step, b: Step, c: Step)
    requires Enabled(s, a) && s1 == Taken(s, a) && Enabled(s1, b) && s2 == Taken(s1, b) && Enabled(s2, c)
    ensures Legal(s, [a, b, c]) && Run(s, [a, b, c]) == Taken(s2, c)
  {
    var s3 := Taken(s2, c);
    assert [a, b, c][1..] == [b, c] && [b, c][1..] == [c] && [c][1..] == [];
    assert Legal(s3, []) && Run(s3, []) == s3;
    assert Legal(s2, [c]) && Run(s2, [c]) == s3;
    assert Legal(s1, [b, c]) && Run(s1, [b, c]) == s3;
  }

  lemma PredecessorIsFound(s: State, id: nat)
    requires Inv(s) && id in s.sessions && !s.sessions[id].revoked && |s.sessions[id].chain| >= 2
    ensures
      var t := s.sessions[id].chain[|s.sessions[id].chain| - 2];
      FindsCurrent(s, t, None) && FindsRotated(s, t, Some(id))
  {
    var chain := s.sessions[id].chain;
    var t := chain[|chain| - 2];
    assert SessionSound(s.sessions[id], s.minted) && t in chain;
    forall a | a in s.sessions ensures s.sessions[a].hash != t {
      var y := s.sessions[a];
      assert SessionSound(y, s.minted) && y.hash in y.chain;
      if a != id { assert Apart(chain, y.chain); }
    }
  }

  /** After a logout no token of the session ever wins again. */
  lemma LogoutIsFinal(s: State, id: nat, steps: seq<Step>, call: nat, token: nat)
    requires Inv(s) && id in s.sessions && token in s.sessions[id].chain
    requires Legal(Taken(s, Logout(id)), steps)
    ensures
      var t := Run(Taken(s, Logout(id)), steps);
      && id in t.sessions && t.sessions[id].revoked && t.sessions[id].chain == s.sessions[id].chain
      && (WonWith(t, call, token) ==> WonWith(s, call, token))
  {
    StepKeepsInv(s, Logout(id));
    RevokedIsDead(Taken(s, Logout(id)), steps, id, call, token);
  }

  /** A call that was turned down stays so. */
  lemma {:induction false} RejectionIsFinal(s: State, steps: seq<Step>, call: nat)
    requires Legal(s, steps) && call < |s.calls| && s.calls[call].stage.Rejected?
    ensures call < |Run(s, steps).calls| && Run(s, steps).calls[call] == s.calls[call]
    decreases |steps|
  {
    if steps != [] { RejectionIsFinal(Taken(s, steps[0]), steps[1..], call); }
  }

  /** What a load decides: a revoked session first, then one past its time, and neither rotates on any
      continuation; a live one goes on, up to and including the moment it expires. */
  lemma LoadDecides(s: State, call: nat, id: nat, now: int, steps: seq<Step>)
    requires Enabled(s, Load(call, Some(id), now)) && Legal(Taken(s, Load(call, Some(id), now)), steps)
    ensures
      var s1, x := Taken(s, Load(call, Some(id), now)), s.sessions[id];
      && (x.revoked ==> At(Run(s1, steps), call, Rejected(Revoked)))
      && (!x.revoked && now > x.expiresAt ==> At(Run(s1, steps), call, Rejected(Expired)))
      && (!x.revoked && now <= x.expiresAt ==> s1.calls[call].stage == Loaded(id))
      && s1.sessions == s.sessions && s1.log == s.log
  {
    var s1, x := Taken(s, Load(call, Some(id), now)), s.sessions[id];
    if x.revoked || now > x.expiresAt { RejectionIsFinal(s1, steps, call); }
  }

  /** What a rotation decides: the session moves on to a fresh token exactly if the one presented is still its
      current one and it is not revoked, and then an answered call wins that token; otherwise nothing changes and
      the call is told of the conflict. A lost answer leaves the caller without the token either way. */
  lemma RotateDecides(s: State, call: nat, answered: bool)
    requires Enabled(s, Rotate(call, answered))
    ensures
      var id, token, s' := s.calls[call].stage.id, s.calls[call].token, Taken(s, Rotate(call, answered));
      var current := s.sessions[id].hash == token && !s.sessions[id].revoked;
      && (current ==> s'.sessions == s.sessions[id := s.sessions[id].(hash := s.minted, rotatedFrom := Some(token),
                                                                        chain := s.sessions[id].chain + [s.minted])])
      && (!current ==> s'.sessions == s.sessions)
      && s'.calls[call].stage == (if !answered then Rejected(Transient) else if current then Won(s.minted) else Rejected(Conflict))
  {
  }

  /** A failing store turns the call down and changes no session; a lookup of old tokens that fails is taken for an
      unknown token, and a revocation that does not reach the store is answered as reuse all the same. */
  lemma FailuresTurnDown(s: State, call: nat)
    ensures Enabled(s, LoadFails(call)) ==>
      Taken(s, LoadFails(call)).sessions == s.sessions && At(Taken(s, LoadFails(call)), call, Rejected(Transient))
    ensures Enabled(s, LookupOldFails(call)) ==>
      Taken(s, LookupOldFails(call)).sessions == s.sessions && At(Taken(s, LookupOldFails(call)), call, Rejected(Unknown))
    ensures Enabled(s, RotateFails(call)) ==>
      Taken(s, RotateFails(call)).sessions == s.sessions && At(Taken(s, RotateFails(call)), call, Rejected(Transient))
    ensures Enabled(s, RevokeReused(call, false)) ==>
      Taken(s, RevokeReused(call, false)).sessions == s.sessions && At(Taken(s, RevokeReused(call, false)), call, Rejected(Reused))
  {
  }
}
