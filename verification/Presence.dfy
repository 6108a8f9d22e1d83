/** A connection's presence subscriptions and the upstream feeds that back them. */
module Presence {

  const MAX_SUBSCRIPTIONS: nat := 50

  datatype User = User(id: string)

  const NOBODY: User := User("")

  function Users(s: seq<User>): set<User> {
    if s == [] then {} else Users(s[..|s| - 1]) + {s[|s| - 1]}
  }

  /** Unsubscribes run first; each takes a user out at most once. */
  function Dropped(tracked: set<User>, unsub: seq<User>): seq<User> {
    if unsub == [] then []
    else
      var init, u := unsub[..|unsub| - 1], unsub[|unsub| - 1];
      if u in tracked && u !in Users(init) then Dropped(tracked, init) + [u] else Dropped(tracked, init)
  }

  /** Subscribes in order: empty, repeated and over-cap requests are dropped. */
  function Joined(tracked: set<User>, sub: seq<User>): seq<User> {
    if sub == [] then []
    else
      var init, u := sub[..|sub| - 1], sub[|sub| - 1];
      var added := Joined(tracked, init);
      var now := tracked + Users(added);
      if u == NOBODY || u in now || |now| >= MAX_SUBSCRIPTIONS then added else added + [u]
  }

  /** As many users as entries: nobody stands in `s` twice. */
  predicate NoRepeats(s: seq<User>) {
    |Users(s)| == |s|
  }

  lemma {:induction false} UsersAppend(a: seq<User>, b: seq<User>)
    ensures Users(a + b) == Users(a) + Users(b)
  {
    if b == [] {
      assert a + b == a;
    } else {
      UsersAppend(a, b[..|b| - 1]);
      assert (a + b)[..|a + b| - 1] == a + b[..|b| - 1];
    }
  }

  lemma {:induction false} UsersSize(s: seq<User>)
    ensures |Users(s)| <= |s|
  {
    if s != [] { UsersSize(s[..|s| - 1]); }
  }

  lemma UsersSnoc(s: seq<User>, u: User)
    ensures Users(s + [u]) == Users(s) + {u}
    ensures NoRepeats(s + [u]) <==> NoRepeats(s) && u !in Users(s)
  {
    assert (s + [u])[..|s|] == s;
    UsersSize(s);
  }

  lemma {:induction false} DroppedUsers(tracked: set<User>, unsub: seq<User>)
    ensures Users(Dropped(tracked, unsub)) == tracked * Users(unsub)
  {
    if unsub != [] {
      var init, u := unsub[..|unsub| - 1], unsub[|unsub| - 1];
      DroppedUsers(tracked, init);
      UsersSnoc(Dropped(tracked, init), u);
    }
  }

  lemma DroppedSnoc(tracked: set<User>, unsub: seq<User>, u: User)
    ensures Users(unsub + [u]) == Users(unsub) + {u}
    ensures Dropped(tracked, unsub + [u]) ==
      Dropped(tracked, unsub) + if u in tracked - Users(unsub) then [u] else []
  {
    assert (unsub + [u])[..|unsub|] == unsub;
  }

  /** Those dropped are the tracked users asked to go, each once. */
  lemma {:induction false} DroppedMeans(tracked: set<User>, unsub: seq<User>)
    ensures Users(Dropped(tracked, unsub)) == tracked * Users(unsub) && NoRepeats(Dropped(tracked, unsub))
  {
    DroppedUsers(tracked, unsub);
    if unsub != [] {
      var init := unsub[..|unsub| - 1];
      DroppedMeans(tracked, init);
      UsersSnoc(Dropped(tracked, init), unsub[|unsub| - 1]);
    }
  }

  lemma {:induction false} JoinedFrom(tracked: set<User>, sub: seq<User>)
    ensures Users(Joined(tracked, sub)) <= Users(sub) - tracked - {NOBODY}
    ensures NoRepeats(Joined(tracked, sub))
  {
    if sub != [] {
      var init, u := sub[..|sub| - 1], sub[|sub| - 1];
      JoinedFrom(tracked, init);
      UsersSnoc(Joined(tracked, init), u);
    }
  }

  lemma {:induction false} JoinedWithinCap(tracked: set<User>, sub: seq<User>)
    requires |tracked| <= MAX_SUBSCRIPTIONS
    ensures |tracked + Users(Joined(tracked, sub))| <= 50
  {
    if sub == [] {
      assert tracked + Users([]) == tracked;
    } else {
      var init, u := sub[..|sub| - 1], sub[|sub| - 1];
      JoinedWithinCap(tracked, init);
      var added := Joined(tracked, init);
      UsersSnoc(added, u);
      assert tracked + (Users(added) + {u}) == (tracked + Users(added)) + {u};
    }
  }

  /** A request is refused only because it is empty, already tracked, or over the cap: below the
      cap everything asked for is tracked. */
  lemma {:induction false} JoinedAllBelowCap(tracked: set<User>, sub: seq<User>)
    requires |tracked + Users(Joined(tracked, sub))| < 50
    ensures tracked + Users(Joined(tracked, sub)) == tracked + (Users(sub) - {NOBODY})
  {
    if sub != [] {
      var init, u := sub[..|sub| - 1], sub[|sub| - 1];
      var now, later := tracked + Users(Joined(tracked, init)), tracked + Users(Joined(tracked, sub));
      assert init + [u] == sub;
      JoinedLast(tracked, init, u);
      KeptSize(later, now);
      JoinedAllBelowCap(tracked, init);
      OneMore(tracked, Users(init), now, later, u);
    }
  }

  lemma OneMore(tracked: set<User>, asked: set<User>, now: set<User>, later: set<User>, u: User)
    requires now == tracked + (asked - {NOBODY}) && later == (if u == NOBODY then now else now + {u})
    ensures later == tracked + ((asked + {u}) - {NOBODY})
  {
  }

  /** One more request: refused if empty or over the cap, tracked otherwise. */
  lemma JoinedLast(tracked: set<User>, init: seq<User>, u: User)
    ensures
      var now := tracked + Users(Joined(tracked, init));
      && tracked + Users(Joined(tracked, init + [u]))
         == (if u == NOBODY || |now| >= MAX_SUBSCRIPTIONS then now else now + {u})
      && Users(init + [u]) == Users(init) + {u}
  {
    assert (init + [u])[..|init|] == init;
    var added := Joined(tracked, init);
    assert (added + [u])[..|added|] == added;
  }

  /** The set of users one connection tracks. */
  class Subscriptions {
    var tracked: set<User>

    constructor ()
      ensures tracked == {}
    {
      tracked := {};
    }

    method Apply(sub: seq<User>, unsub: seq<User>) returns (added: seq<User>, removed: seq<User>)
      modifies this
      ensures removed == Dropped(old(tracked), unsub)
      ensures added == Joined(old(tracked) - Users(unsub), sub)
      ensures tracked == old(tracked) - Users(unsub) + Users(added)
    {
      removed := Remove(unsub);
      added := Add(sub);
    }

    method Remove(unsub: seq<User>) returns (removed: seq<User>)
      modifies this
      ensures removed == Dropped(old(tracked), unsub)
      ensures tracked == old(tracked) - Users(unsub)
    {
      removed := [];
      for i := 0 to |unsub|
        invariant removed == Dropped(old(tracked), unsub[..i])
        invariant tracked == old(tracked) - Users(unsub[..i])
      {
        DroppedSnoc(old(tracked), unsub[..i], unsub[i]);
        assert unsub[..i + 1] == unsub[..i] + [unsub[i]];
        if unsub[i] in tracked {
          tracked := tracked - {unsub[i]};
          removed := removed + [unsub[i]];
        }
      }
      assert unsub[..|unsub|] == unsub;
    }

    method Add(sub: seq<User>) returns (added: seq<User>)
      modifies this
      ensures added == Joined(old(tracked), sub)
      ensures tracked == old(tracked) + Users(added)
    {
      added := [];
      for i := 0 to |sub|
        invariant added == Joined(old(tracked), sub[..i])
        invariant tracked == old(tracked) + Users(added)
      {
        assert sub[..i + 1][..i] == sub[..i];
        if sub[i] != NOBODY && sub[i] !in tracked && |tracked| < MAX_SUBSCRIPTIONS {
          UsersSnoc(added, sub[i]);
          tracked := tracked + {sub[i]};
          added := added + [sub[i]];
        }
      }
      assert sub[..|sub|] == sub;
    }

    predicate Has(user: User)
      reads this
    {
      user in tracked
    }

    method Clear() returns (was: set<User>)
      modifies this
      ensures was == old(tracked) && tracked == {}
    {
      was, tracked := tracked, {};
    }
  }

  // ------------------------------------------------------- feeds as a value

  /** What the presence backend answers when a feed is opened for a user. */
  datatype Backend = Refused | PresenceFailed | TypingFailed | Opened

  /** An open feed: its presence and typing handles upstream. */
  datatype Feed = Feed(presence: nat, typing: nat)

  /** A connection's tracked users, the feeds behind them, and the upstream's own books: how many
      handles it issued, whose feed each open one backs, and every close in order. */
  datatype Desk = Desk(tracked: set<User>, feeds: map<User, Feed>, issued: nat, owner: map<nat, User>, closed: seq<nat>)

  function Revoked(d: Desk, u: User): Desk {
    d.(tracked := d.tracked - {u})
  }

  function Closed(d: Desk, u: User): Desk {
    if u !in d.feeds then d
    else
      var f := d.feeds[u];
      d.(feeds := d.feeds - {u}, owner := d.owner - {f.presence, f.typing}, closed := d.closed + [f.presence] + [f.typing])
  }

  /** Privacy, then the presence feed, then the typing feed; any failure revokes the subscription,
      and a half-open pair is closed again. */
  function Opening(d: Desk, u: User, answer: Backend): Desk {
    match answer
    case Refused => Revoked(d, u)
    case PresenceFailed => Revoked(d, u)
    case TypingFailed => Revoked(d.(issued := d.issued + 1, closed := d.closed + [d.issued]), u)
    case Opened =>
      d.(feeds := d.feeds[u := Feed(d.issued, d.issued + 1)], issued := d.issued + 2,
         owner := d.owner[d.issued := u][d.issued + 1 := u])
  }

  function Answer(answers: map<User, Backend>, u: User): Backend {
    if u in answers then answers[u] else Refused
  }

  function ClosedAll(d: Desk, users: seq<User>): Desk {
    if users == [] then d else Closed(ClosedAll(d, users[..|users| - 1]), users[|users| - 1])
  }

  lemma ClosedAllSnoc(d: Desk, users: seq<User>, u: User)
    ensures ClosedAll(d, users + [u]) == Closed(ClosedAll(d, users), u)
    ensures Users(users + [u]) == Users(users) + {u}
  {
    assert (users + [u])[..|users|] == users;
  }

  /** Teardown, closing the feeds in the given order. */
  function TornDown(d: Desk, order: seq<User>): Desk {
    ClosedAll(d, order).(tracked := {})
  }

  function OpenedAll(d: Desk, users: seq<User>, answers: map<User, Backend>): Desk {
    if users == [] then d
    else Opening(OpenedAll(d, users[..|users| - 1], answers), users[|users| - 1], Answer(answers, users[|users| - 1]))
  }

  /** A whole subscription frame. */
  function Handled(d: Desk, sub: seq<User>, unsub: seq<User>, answers: map<User, Backend>): Desk {
    var kept := d.tracked - Users(unsub);
    var added := Joined(kept, sub);
    OpenedAll(ClosedAll(d.(tracked := kept + Users(added)), Dropped(d.tracked, unsub)), added, answers)
  }

  class ConnPresence {
    const subs: Subscriptions
    var feeds: map<User, Feed>
    var issued: nat
    var owner: map<nat, User>
    var closed: seq<nat>

    function Value(): Desk
      reads this, subs
    {
      Desk(subs.tracked, feeds, issued, owner, closed)
    }

    constructor ()
      ensures Value() == Desk({}, map[], 0, map[], []) && fresh(subs)
    {
      subs := new Subscriptions();
      feeds, issued, owner, closed := map[], 0, map[], [];
    }

    method HandlePresenceSub(sub: seq<User>, unsub: seq<User>, answers: map<User, Backend>)
      modifies this, subs
      ensures Value() == Handled(old(Value()), sub, unsub, answers)
    {
      var added, removed := subs.Apply(sub, unsub);
      CloseFeeds(removed);
      OpenFeeds(added, answers);
    }

    method CloseFeeds(removed: seq<User>)
      modifies this
      ensures Value() == ClosedAll(old(Value()), removed)
    {
      for i := 0 to |removed|
        invariant Value() == ClosedAll(old(Value()), removed[..i])
      {
        assert removed[..i + 1][..i] == removed[..i];
        CloseFeed(removed[i]);
      }
      assert removed[..|removed|] == removed;
    }

    method OpenFeeds(added: seq<User>, answers: map<User, Backend>)
      modifies this, subs
      ensures Value() == OpenedAll(old(Value()), added, answers)
    {
      for i := 0 to |added|
        invariant Value() == OpenedAll(old(Value()), added[..i], answers)
      {
        assert added[..i + 1][..i] == added[..i];
        OpenFeed(added[i], Answer(answers, added[i]));
      }
      assert added[..|added|] == added;
    }

    method OpenFeed(user: User, answer: Backend)
      modifies this, subs
      ensures Value() == Opening(old(Value()), user, answer)
    {
      if answer == Refused || answer == PresenceFailed {
        Revoke(user);
        return;
      }
      var presence := issued;
      issued := issued + 1;
      if answer == TypingFailed {
        closed := closed + [presence];
        Revoke(user);
        return;
      }
      var typing := issued;
      issued := issued + 1;
      feeds := feeds[user := Feed(presence, typing)];
      owner := owner[presence := user][typing := user];
    }

    method CloseFeed(user: User)
      modifies this
      ensures Value() == Closed(old(Value()), user)
    {
      if user in feeds {
        var f := feeds[user];
        closed := closed + [f.presence] + [f.typing];
        owner := owner - {f.presence, f.typing};
        feeds := feeds - {user};
      }
    }

    method Revoke(user: User)
      modifies subs
      ensures subs.tracked == old(subs.tracked) - {user}
    {
      var _, _ := subs.Apply([], [user]);
      UsersSnoc([], user);
      assert [] + [user] == [user];
    }

    /** Connection teardown: the open feeds are closed in whatever order the map yields them. */
    method CloseAll() returns (order: seq<User>)
      modifies this, subs
      ensures Users(order) == old(feeds.Keys)
      ensures Value() == TornDown(old(Value()), order)
    {
      order := [];
      ghost var was := Value();
      ghost var open := feeds.Keys;
      while feeds != map[]
        invariant Value() == ClosedAll(was, order)
        invariant feeds.Keys == open - Users(order) && Users(order) <= open
        decreases |feeds|
      {
        var u :| u in feeds;
        ClosedAllSnoc(was, order, u);
        CloseFeed(u);
        order := order + [u];
      }
      var _ := subs.Clear();
    }
  }

  // ------------------------------------------------------------- the books

  function Count(s: seq<nat>, h: nat): nat {
    if s == [] then 0 else Count(s[..|s| - 1], h) + if s[|s| - 1] == h then 1 else 0
  }

  /** Handle `h`: not issued yet and never closed; or open, backing its owner's feed, and never
      closed; or closed exactly once. */
  ghost predicate HandleSound(d: Desk, h: nat) {
    if h >= d.issued then h !in d.owner && Count(d.closed, h) == 0
    else if h in d.owner then
      Count(d.closed, h) == 0 && d.owner[h] in d.feeds
      && (h == d.feeds[d.owner[h]].presence || h == d.feeds[d.owner[h]].typing)
    else Count(d.closed, h) == 1
  }

  ghost predicate FeedSound(d: Desk, u: User) {
    u in d.feeds ==>
      var f := d.feeds[u];
      && f.presence != f.typing
      && f.presence in d.owner && d.owner[f.presence] == u && f.typing in d.owner && d.owner[f.typing] == u
  }

  ghost predicate Booked(d: Desk) {
    (forall h: nat :: HandleSound(d, h)) && (forall u: User :: FeedSound(d, u))
  }

  /** Between frames: one feed per tracked user, within the cap, books in order. */
  ghost predicate Sound(d: Desk) {
    Booked(d) && d.feeds.Keys == d.tracked && |d.tracked| <= MAX_SUBSCRIPTIONS && NOBODY !in d.tracked
  }

  lemma CountSnoc(s: seq<nat>, x: nat, h: nat)
    ensures Count(s + [x], h) == Count(s, h) + if x == h then 1 else 0
  {
    assert (s + [x])[..|s|] == s;
  }

  lemma BooksIgnoreTracked(d: Desk, tracked: set<User>)
    requires Booked(d)
    ensures Booked(d.(tracked := tracked))
  {
    var d' := d.(tracked := tracked);
    forall h: nat ensures HandleSound(d', h) { assert HandleSound(d, h); }
    forall u: User ensures FeedSound(d', u) { assert FeedSound(d, u); }
  }

  lemma ClosedKeepsBooks(d: Desk, u: User)
    requires Booked(d)
    ensures Booked(Closed(d, u)) && Closed(d, u).feeds.Keys == d.feeds.Keys - {u}
  {
    if u in d.feeds {
      var d', f := Closed(d, u), d.feeds[u];
      assert FeedSound(d, u);
      assert HandleSound(d, f.presence) && HandleSound(d, f.typing);
      forall h: nat ensures HandleSound(d', h) {
        assert HandleSound(d, h);
        CountSnoc(d.closed, f.presence, h);
        CountSnoc(d.closed + [f.presence], f.typing, h);
      }
      forall v: User ensures FeedSound(d', v) { assert FeedSound(d, v); }
    }
  }

  lemma GrantKeepsBooks(d: Desk, u: User)
    requires Booked(d) && u !in d.feeds
    ensures Booked(Opening(d, u, Opened))
  {
    var d' := Opening(d, u, Opened);
    assert HandleSound(d, d.issued) && HandleSound(d, d.issued + 1);
    forall h: nat ensures HandleSound(d', h) { assert HandleSound(d, h); }
    forall v: User ensures FeedSound(d', v) {
      assert FeedSound(d, v);
      if v in d.feeds {
        assert HandleSound(d, d.feeds[v].presence) && HandleSound(d, d.feeds[v].typing);
      }
    }
  }

  lemma HalfOpenKeepsBooks(d: Desk, u: User)
    requires Booked(d)
    ensures Booked(Opening(d, u, TypingFailed))
  {
    var d' := Opening(d, u, TypingFailed);
    forall h: nat ensures HandleSound(d', h) {
      assert HandleSound(d, h);
      CountSnoc(d.closed, d.issued, h);
    }
    forall v: User ensures FeedSound(d', v) { assert FeedSound(d, v); }
  }

  lemma OpeningKeepsBooks(d: Desk, u: User, answer: Backend)
    requires Booked(d) && u !in d.feeds
    ensures Booked(Opening(d, u, answer))
  {
    match answer
    case Opened => GrantKeepsBooks(d, u);
    case TypingFailed => HalfOpenKeepsBooks(d, u);
    case _ => BooksIgnoreTracked(d, d.tracked - {u});
  }

  lemma {:induction false} ClosedAllKeepsBooks(d: Desk, users: seq<User>)
    requires Booked(d)
    ensures
      var d' := ClosedAll(d, users);
      Booked(d') && d'.tracked == d.tracked && d'.feeds.Keys == d.feeds.Keys - Users(users) && d'.issued == d.issued
  {
    if users != [] {
      var init, u := users[..|users| - 1], users[|users| - 1];
      ClosedAllKeepsBooks(d, init);
      ClosedKeepsBooks(ClosedAll(d, init), u);
    }
  }

  /** Users whose feed the backend opens. */
  function Granted(users: seq<User>, answers: map<User, Backend>): set<User> {
    if users == [] then {}
    else Granted(users[..|users| - 1], answers)
         + if Answer(answers, users[|users| - 1]) == Opened then {users[|users| - 1]} else {}
  }

  lemma {:induction false} GrantedAmong(users: seq<User>, answers: map<User, Backend>)
    ensures Granted(users, answers) <= Users(users)
  {
    if users != [] { GrantedAmong(users[..|users| - 1], answers); }
  }

  lemma {:induction false} OpenedAllKeys(d: Desk, users: seq<User>, answers: map<User, Backend>)
    ensures OpenedAll(d, users, answers).feeds.Keys == d.feeds.Keys + Granted(users, answers)
  {
    if users != [] { OpenedAllKeys(d, users[..|users| - 1], answers); }
  }

  function Denied(users: seq<User>, answers: map<User, Backend>): set<User> {
    if users == [] then {}
    else Denied(users[..|users| - 1], answers)
         + if Answer(answers, users[|users| - 1]) == Opened then {} else {users[|users| - 1]}
  }

  lemma {:induction false} OpenedAllTracked(d: Desk, users: seq<User>, answers: map<User, Backend>)
    ensures OpenedAll(d, users, answers).tracked == d.tracked - Denied(users, answers)
  {
    if users != [] { OpenedAllTracked(d, users[..|users| - 1], answers); }
  }

  lemma {:induction false} GrantedOrDenied(users: seq<User>, answers: map<User, Backend>, u: User)
    ensures u in Granted(users, answers) <==> u in Users(users) && Answer(answers, u) == Opened
    ensures u in Denied(users, answers) <==> u in Users(users) && Answer(answers, u) != Opened
  {
    if users != [] { GrantedOrDenied(users[..|users| - 1], answers, u); }
  }

  lemma TrackedAfterOpening(d: Desk, kept: set<User>, users: seq<User>, answers: map<User, Backend>)
    requires d.tracked == kept + Users(users) && Users(users) !! kept
    ensures OpenedAll(d, users, answers).tracked == kept + Granted(users, answers)
    ensures Granted(users, answers) <= Users(users)
  {
    OpenedAllTracked(d, users, answers);
    forall u: User
      ensures u in Granted(users, answers) <==> u in Users(users) && u !in Denied(users, answers)
      ensures u in Denied(users, answers) ==> u in Users(users)
    {
      GrantedOrDenied(users, answers, u);
    }
  }

  lemma LastIsNew(users: seq<User>)
    requires users != [] && NoRepeats(users)
    ensures users[|users| - 1] !in Users(users[..|users| - 1]) && NoRepeats(users[..|users| - 1])
  {
    assert users == users[..|users| - 1] + [users[|users| - 1]];
    UsersSnoc(users[..|users| - 1], users[|users| - 1]);
  }

  lemma {:induction false} OpenedAllKeepsBooks(d: Desk, users: seq<User>, answers: map<User, Backend>)
    requires Booked(d) && NoRepeats(users) && Users(users) !! d.feeds.Keys
    ensures Booked(OpenedAll(d, users, answers))
  {
    if users != [] {
      var init, u := users[..|users| - 1], users[|users| - 1];
      LastIsNew(users);
      OpenedAllKeepsBooks(d, init, answers);
      OpenedAllKeys(d, init, answers);
      GrantedAmong(init, answers);
      OpeningKeepsBooks(OpenedAll(d, init, answers), u, Answer(answers, u));
    }
  }

  // ---------------------------------------------------------------- theorems

  /** After every frame, whatever it asks for and however its feeds fail: the users with an open
      feed are exactly the tracked ones, never more than the cap; the frame's effect is the users
      it kept plus those it added and the backend granted; and every upstream handle is open behind
      one feed or has been closed once. */
  lemma FrameKeepsSound(d: Desk, sub: seq<User>, unsub: seq<User>, answers: map<User, Backend>)
    requires Sound(d)
    ensures
      var d', kept := Handled(d, sub, unsub, answers), d.tracked - Users(unsub);
      Sound(d') && d'.tracked == kept + Granted(Joined(kept, sub), answers)
  {
    var kept := d.tracked - Users(unsub);
    var added := Joined(kept, sub);
    var dropped := Dropped(d.tracked, unsub);
    AppliedMeans(d.tracked, sub, unsub);
    BooksIgnoreTracked(d, kept + Users(added));
    var d1 := d.(tracked := kept + Users(added));
    ClosedAllKeepsBooks(d1, dropped);
    var d2 := ClosedAll(d1, dropped);
    OpenedAllKeepsBooks(d2, added, answers);
    OpenedAllKeys(d2, added, answers);
    TrackedAfterOpening(d2, kept, added, answers);
    KeptSize(kept + Users(added), kept + Granted(added, answers));
  }

  /** What Apply hands to the feed loops. */
  lemma AppliedMeans(was: set<User>, sub: seq<User>, unsub: seq<User>)
    requires |was| <= MAX_SUBSCRIPTIONS && NOBODY !in was
    ensures
      var kept := was - Users(unsub);
      var added := Joined(kept, sub);
      && was - Users(Dropped(was, unsub)) == kept
      && NoRepeats(added) && Users(added) !! kept
      && |kept + Users(added)| <= MAX_SUBSCRIPTIONS && NOBODY !in kept + Users(added)
  {
    var kept := was - Users(unsub);
    DroppedUsers(was, unsub);
    KeptSize(was, kept);
    JoinedFrom(kept, sub);
    JoinedWithinCap(kept, sub);
  }

  datatype Frame = Frame(sub: seq<User>, unsub: seq<User>, answers: map<User, Backend>)

  function Connection(frames: seq<Frame>): Desk {
    if frames == [] then Desk({}, map[], 0, map[], [])
    else
      var f := frames[|frames| - 1];
      Handled(Connection(frames[..|frames| - 1]), f.sub, f.unsub, f.answers)
  }

  lemma {:induction false} ConnectionSound(frames: seq<Frame>)
    ensures Sound(Connection(frames))
  {
    if frames == [] {
      var d := Connection([]);
      forall h: nat ensures HandleSound(d, h) {}
      forall u: User ensures FeedSound(d, u) {}
    } else {
      var f := frames[|frames| - 1];
      ConnectionSound(frames[..|frames| - 1]);
      FrameKeepsSound(Connection(frames[..|frames| - 1]), f.sub, f.unsub, f.answers);
    }
  }

  lemma NoFeedNoOwner(d: Desk, h: nat)
    requires HandleSound(d, h) && d.feeds == map[]
    ensures h !in d.owner
  {
  }

  /** Over a whole connection, any frames and then teardown in any order, every upstream feed opened was
      closed exactly once, partial opens included, and none is left. */
  lemma NothingLeaks(frames: seq<Frame>, order: seq<User>, h: nat)
    requires Users(order) == Connection(frames).feeds.Keys
    ensures TornDown(Connection(frames), order).feeds == map[] && TornDown(Connection(frames), order).owner == map[]
    ensures TornDown(Connection(frames), order).tracked == {}
    ensures TornDown(Connection(frames), order).issued == Connection(frames).issued
    ensures h < Connection(frames).issued ==> Count(TornDown(Connection(frames), order).closed, h) == 1
  {
    var d := Connection(frames);
    ConnectionSound(frames);
    ClosedAllKeepsBooks(d, order);
    var d' := TornDown(d, order);
    BooksIgnoreTracked(ClosedAll(d, order), {});
    assert d'.feeds.Keys == {};
    forall k: nat ensures k !in d'.owner { NoFeedNoOwner(d', k); }
    assert HandleSound(d', h);
  }

  // -------------------------------------------------------------------- sets

  lemma KeptSize(big: set<User>, small: set<User>)
    requires small <= big
    ensures |small| <= |big|
  {
    var rest := big - small;
    assert big == small + rest && small !! rest;
  }
}
