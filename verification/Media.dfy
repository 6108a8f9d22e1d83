/** Media reference counts: AddRef and DecRef, and the consumer that applies dereference commands from a
    subject on which the service also publishes its own facts. */
module Media {
  import opened Ports

  const DEREFERENCE := "dereference"
  const REF_ADDED := "ref_added"
  const REF_REMOVED := "ref_removed"

  /** A payload of the lifecycle subject. The service's own facts carry the new count and no event id. */
  datatype Event = Event(kind: string, key: string, id: string, count: nat)

  /** A call of DecRef by the consumer, for the event that asked for it. */
  datatype Attempt = Attempt(id: string, key: string, store: Port)

  datatype World = World(refs: map<string, nat>, seen: set<string>, facts: seq<Event>, attempts: seq<Attempt>)

  datatype Input =
    | Reference(key: string, store: Port)
    | Deliver(event: Event, dedupe: Port, store: Port)

  // ------------------------------------------------------------- semantics

  function Referenced(w: World, key: string, store: Port): World {
    if store.NeverRan? || key !in w.refs then w
    else
      w.(refs := w.refs[key := w.refs[key] + 1],
         facts := if store.Answered? then w.facts + [Event(REF_ADDED, key, "", w.refs[key] + 1)] else w.facts)
  }

  /** The count never goes below zero, and a missing object is no error. */
  function Dereferenced(w: World, key: string, store: Port): World {
    if store.NeverRan? || key !in w.refs then w
    else
      var count := if w.refs[key] == 0 then 0 else w.refs[key] - 1;
      w.(refs := w.refs[key := count],
         facts := if store.Answered? then w.facts + [Event(REF_REMOVED, key, "", count)] else w.facts)
  }

  predicate IsCommand(e: Event) {
    e.kind == DEREFERENCE && e.key != ""
  }

  /** The event's id goes into the seen set before the count is touched. */
  function Handled(w: World, deduping: bool, e: Event, dedupe: Port, store: Port): World {
    if !IsCommand(e) then w
    else if deduping && e.id != "" then
      if dedupe.NeverRan? then w
      else
        var marked := w.(seen := w.seen + {e.id});
        if dedupe.AnswerLost? || e.id in w.seen then marked else Attempted(marked, e, store)
    else Attempted(w, e, store)
  }

  function Attempted(w: World, e: Event, store: Port): World {
    Dereferenced(w.(attempts := w.attempts + [Attempt(e.id, e.key, store)]), e.key, store)
  }

  function Next(w: World, deduping: bool, input: Input): World {
    match input
    case Reference(key, store) => Referenced(w, key, store)
    case Deliver(e, dedupe, store) => Handled(w, deduping, e, dedupe, store)
  }

  function Ran(w: World, deduping: bool, inputs: seq<Input>): World
    decreases |inputs|
  {
    if inputs == [] then w else Ran(Next(w, deduping, inputs[0]), deduping, inputs[1..])
  }

  // --------------------------------------------------- service and consumer

  class Service {
    const deduping: bool
    var refs: map<string, nat>
    var seen: set<string>
    var facts: seq<Event>
    var attempts: seq<Attempt>

    constructor (deduping: bool, refs: map<string, nat>)
      ensures this.deduping == deduping && Now() == World(refs, {}, [], [])
    {
      this.deduping, this.refs, seen, facts, attempts := deduping, refs, {}, [], [];
    }

    ghost function Now(): World
      reads this
    {
      World(refs, seen, facts, attempts)
    }

    /** Fails on a missing object, unlike DecRef. */
    method AddRef(key: string, store: Port) returns (ok: bool)
      modifies this
      ensures Now() == Referenced(old(Now()), key, store)
      ensures ok <==> store.Answered? && key in old(refs)
    {
      if store.NeverRan? || key !in refs { return false; }
      refs := refs[key := refs[key] + 1];
      if store.AnswerLost? { return false; }
      facts := facts + [Event(REF_ADDED, key, "", refs[key])];
      ok := true;
    }

    method DecRef(key: string, store: Port) returns (ok: bool)
      modifies this`refs, this`facts
      ensures Now() == Dereferenced(old(Now()), key, store)
      ensures ok <==> store.Answered?
    {
      if store.NeverRan? { return false; }
      if key !in refs { return store.Answered?; }
      refs := refs[key := if refs[key] == 0 then 0 else refs[key] - 1];
      if store.AnswerLost? { return false; }
      facts := facts + [Event(REF_REMOVED, key, "", refs[key])];
      ok := true;
    }

    /** The atomic mark: whether the id was there before. */
    method Mark(id: string, dedupe: Port) returns (ok: bool, before: bool)
      modifies this`seen
      ensures ok <==> dedupe.Answered?
      ensures seen == if dedupe.NeverRan? then old(seen) else old(seen) + {id}
      ensures ok ==> (before <==> id in old(seen))
    {
      before := id in seen;
      if !dedupe.NeverRan? { seen := seen + {id}; }
      ok := dedupe.Answered?;
    }

    /** An error comes only from a store that did not answer. */
    method Handle(e: Event, dedupe: Port, store: Port) returns (ok: bool)
      modifies this
      ensures Now() == Handled(old(Now()), deduping, e, dedupe, store)
      ensures !ok ==> IsCommand(e) && (!dedupe.Answered? || !store.Answered?)
    {
      if e.kind != DEREFERENCE || e.key == "" { return true; }
      if deduping && e.id != "" {
        var answered, before := Mark(e.id, dedupe);
        if !answered { return false; }
        if before { return true; }
      }
      attempts := attempts + [Attempt(e.id, e.key, store)];
      ok := DecRef(e.key, store);
    }
  }

  // ------------------------------------------------------------ at most once

  /** This delivery puts `x` in the seen set. */
  predicate Marks(input: Input, x: string) {
    input.Deliver? && IsCommand(input.event) && input.event.id == x && !input.dedupe.NeverRan?
  }

  /** The first delivery that marks `x`, as a sequence of at most one. */
  function FirstMark(inputs: seq<Input>, x: string): (first: seq<Input>)
    ensures |first| <= 1 && forall i :: 0 <= i < |first| ==> first[i].Deliver?
  {
    if inputs == [] then []
    else if Marks(inputs[0], x) then [inputs[0]]
    else FirstMark(inputs[1..], x)
  }

  function Attempts(log: seq<Attempt>, x: string): nat {
    if log == [] then 0 else Attempts(log[..|log| - 1], x) + if log[|log| - 1].id == x then 1 else 0
  }

  function Commits(log: seq<Attempt>, x: string): nat {
    if log == [] then 0
    else Commits(log[..|log| - 1], x) + if log[|log| - 1].id == x && !log[|log| - 1].store.NeverRan? then 1 else 0
  }

  lemma OneStepCounts(w: World, input: Input, x: string)
    requires x != ""
    ensures
      var w' := Next(w, true, input);
      var marks := Marks(input, x) && x !in w.seen;
      && (x in w'.seen <==> x in w.seen || Marks(input, x))
      && Attempts(w'.attempts, x) == Attempts(w.attempts, x) + (if marks && input.dedupe.Answered? then 1 else 0)
      && Commits(w'.attempts, x)
         == Commits(w.attempts, x) + (if marks && input.dedupe.Answered? && !input.store.NeverRan? then 1 else 0)
  {
    var w' := Next(w, true, input);
    if w'.attempts != w.attempts {
      assert w'.attempts[..|w.attempts|] == w.attempts;
    }
  }

  /** With the deduper, over every run and for every event id: DecRef is attempted exactly once if the
      first delivery to mark the id learned that it did, and never otherwise; it takes effect exactly if
      that one attempt reached the store. So it is at most once whatever is redelivered, and the promise
      that a failed event may be redelivered is kept only when it failed before the mark. */
  lemma {:induction false} DereferencedExactly(w: World, inputs: seq<Input>, x: string)
    requires x != "" && x !in w.seen
    ensures
      var first := FirstMark(inputs, x);
      var end := Ran(w, true, inputs);
      && Attempts(end.attempts, x)
         == Attempts(w.attempts, x) + (if first != [] && first[0].dedupe.Answered? then 1 else 0)
      && Commits(end.attempts, x)
         == Commits(w.attempts, x)
            + (if first != [] && first[0].dedupe.Answered? && !first[0].store.NeverRan? then 1 else 0)
    decreases |inputs|
  {
    if inputs != [] {
      OneStepCounts(w, inputs[0], x);
      var w' := Next(w, true, inputs[0]);
      if Marks(inputs[0], x) {
        SeenIsFinal(w', inputs[1..], x);
      } else {
        DereferencedExactly(w', inputs[1..], x);
      }
    }
  }

  /** A marked id is never attempted again: a decrement that failed after its mark is lost for good. */
  lemma {:induction false} SeenIsFinal(w: World, inputs: seq<Input>, x: string)
    requires x != "" && x in w.seen
    ensures Attempts(Ran(w, true, inputs).attempts, x) == Attempts(w.attempts, x)
    ensures Commits(Ran(w, true, inputs).attempts, x) == Commits(w.attempts, x)
    decreases |inputs|
  {
    if inputs != [] {
      OneStepCounts(w, inputs[0], x);
      SeenIsFinal(Next(w, true, inputs[0]), inputs[1..], x);
    }
  }

  /** The store fails, Handle reports it, the event is redelivered with everything working, Handle
      reports success, and the reference is still counted. */
  lemma RedeliveryLosesDecrement(w: World, e: Event)
    requires IsCommand(e) && e.id != "" && e.id !in w.seen && e.key in w.refs
    ensures Ran(w, true, [Deliver(e, Answered, NeverRan), Deliver(e, Answered, Answered)]).refs == w.refs
  {
    var a, b := Deliver(e, Answered, NeverRan), Deliver(e, Answered, Answered);
    assert [a, b][1..] == [b] && [b][1..] == [];
    assert Next(Next(w, true, a), true, b).refs == w.refs;
    assert Ran(w, true, [a, b]) == Ran(Next(w, true, a), true, [b]);
  }

  // ------------------------------------------------------- reference counts

  function Additions(inputs: seq<Input>, key: string): nat {
    if inputs == [] then 0
    else
      (if inputs[0].Reference? && inputs[0].key == key && !inputs[0].store.NeverRan? then 1 else 0)
      + Additions(inputs[1..], key)
  }

  /** The distinct events that ask to drop a reference to `key`. */
  function Commands(inputs: seq<Input>, key: string): set<string> {
    if inputs == [] then {}
    else
      (if inputs[0].Deliver? && IsCommand(inputs[0].event) && inputs[0].event.key == key then {inputs[0].event.id} else {})
      + Commands(inputs[1..], key)
  }

  /** This delivery asks to drop a reference to `key` and was not seen before. */
  predicate FreshCommand(w: World, input: Input, key: string) {
    input.Deliver? && IsCommand(input.event) && input.event.key == key && input.event.id !in w.seen
  }

  lemma OneStepFalls(w: World, input: Input, key: string)
    requires key in w.refs && "" !in Commands([input], key)
    ensures
      var w' := Next(w, true, input);
      && key in w'.refs && w.seen <= w'.seen
      && (w'.refs[key] >= w.refs[key] + Additions([input], key)
          || ((exists x :: x in Commands([input], key) && x !in w.seen && x in w'.seen)
              && w'.refs[key] >= w.refs[key] + Additions([input], key) - 1))
  {
    assert [input][1..] == [];
    if FreshCommand(w, input, key) { assert input.event.id in Commands([input], key); }
  }

  /** However often events are redelivered, a count falls by no more than the distinct events for its
      object that were not applied before, so an object that is still referenced does not reach zero. */
  lemma {:induction false} CountFallsOncePerEvent(w: World, inputs: seq<Input>, key: string)
    requires key in w.refs && "" !in Commands(inputs, key)
    ensures
      var end := Ran(w, true, inputs);
      key in end.refs && end.refs[key] >= w.refs[key] + Additions(inputs, key) - |Commands(inputs, key) - w.seen|
    decreases |inputs|
  {
    if inputs != [] {
      var input, rest := inputs[0], inputs[1..];
      var w' := Next(w, true, input);
      HeadAndRest(inputs, key);
      OneStepFalls(w, input, key);
      CountFallsOncePerEvent(w', rest, key);
      LeftToApply(Commands([input], key), Commands(rest, key), w.seen, w'.seen);
    }
  }

  lemma HeadAndRest(inputs: seq<Input>, key: string)
    requires inputs != []
    ensures Commands(inputs, key) == Commands([inputs[0]], key) + Commands(inputs[1..], key)
    ensures Additions(inputs, key) == Additions([inputs[0]], key) + Additions(inputs[1..], key)
  {
    assert [inputs[0]][1..] == [];
  }

  /** Events still to apply after one delivery: one fewer if it newly marked one of them. */
  lemma LeftToApply(head: set<string>, rest: set<string>, before: set<string>, after: set<string>)
    requires before <= after
    ensures |rest - after| <= |(head + rest) - before|
    ensures (exists x :: x in head && x !in before && x in after) ==> |rest - after| < |(head + rest) - before|
  {
    SubsetSize(rest - after, (head + rest) - before);
    if x :| x in head && x !in before && x in after {
      SubsetSize((rest - after) + {x}, (head + rest) - before);
    }
  }

  lemma SubsetSize(a: set<string>, b: set<string>)
    requires a <= b
    ensures |a| <= |b|
  {
    assert b == a + (b - a) && a !! (b - a);
  }

  /** Without the deduper one repeated event drops two references. */
  lemma DuplicateCountsTwice(w: World, e: Event)
    requires IsCommand(e) && e.key in w.refs && w.refs[e.key] == 2
    ensures Ran(w, false, [Deliver(e, Answered, Answered), Deliver(e, Answered, Answered)]).refs == w.refs[e.key := 0]
  {
    var d := Deliver(e, Answered, Answered);
    assert [d, d][1..] == [d] && [d][1..] == [];
    var w1 := Next(w, false, d);
    assert w1.refs == w.refs[e.key := 1];
    var w2 := Next(w1, false, d);
    assert w2.refs == w.refs[e.key := 0];
    assert Ran(w2, false, []) == w2;
    assert Ran(w1, false, [d]) == w2;
    assert Ran(w, false, [d, d]) == Ran(w1, false, [d]);
  }

  // ------------------------------------------------- the self-feeding subject

  /** Work left in a message: a command or a new reference may publish one fact, a fact publishes none. */
  function Weight(pending: seq<Input>): nat {
    if pending == [] then 0
    else Weight(pending[..|pending| - 1]) + if Publishes(pending[|pending| - 1]) then 2 else 1
  }

  predicate Publishes(input: Input) {
    input.Reference? || input.event.kind == DEREFERENCE
  }

  /** Facts come back to the consumer as deliveries. */
  function Echoed(facts: seq<Event>, dedupe: Port, store: Port): (back: seq<Input>)
    ensures |back| == |facts| && forall i :: 0 <= i < |back| ==> back[i] == Deliver(facts[i], dedupe, store)
  {
    if facts == [] then [] else Echoed(facts[..|facts| - 1], dedupe, store) + [Deliver(facts[|facts| - 1], dedupe, store)]
  }

  datatype Loop = Loop(world: World, pending: seq<Input>)

  /** Any pending message is handled next and whatever it publishes becomes pending. */
  function Turn(l: Loop, deduping: bool, pick: nat, dedupe: Port, store: Port): Loop
    requires pick < |l.pending|
  {
    var w' := Next(l.world, deduping, l.pending[pick]);
    Loop(w', l.pending[..pick] + l.pending[pick + 1..] + Echoed(Published(l.world, w'), dedupe, store))
  }

  function Published(w: World, w': World): seq<Event> {
    if |w.facts| <= |w'.facts| then w'.facts[|w.facts|..] else []
  }

  lemma PublishesAtMostOne(w: World, deduping: bool, input: Input)
    ensures
      var out := Published(w, Next(w, deduping, input));
      |out| <= (if Publishes(input) then 1 else 0) && forall i :: 0 <= i < |out| ==> out[i].kind != DEREFERENCE
  {
  }

  lemma {:induction false} WeightAppend(a: seq<Input>, b: seq<Input>)
    ensures Weight(a + b) == Weight(a) + Weight(b)
    decreases |b|
  {
    if b == [] {
      assert a + b == a;
    } else {
      var n := |b| - 1;
      assert (a + b)[..|a| + n] == a + b[..n];
      WeightAppend(a, b[..n]);
    }
  }

  /** Every turn leaves strictly less work, whichever message is picked and whatever fails. */
  lemma {:induction false} TurnShrinks(l: Loop, deduping: bool, pick: nat, dedupe: Port, store: Port)
    requires pick < |l.pending|
    ensures Weight(Turn(l, deduping, pick, dedupe, store).pending) < Weight(l.pending)
  {
    var input := l.pending[pick];
    var p, q := l.pending[..pick], l.pending[pick + 1..];
    var out := Published(l.world, Next(l.world, deduping, input));
    var back := Echoed(out, dedupe, store);
    PublishesAtMostOne(l.world, deduping, input);
    assert l.pending == p + ([input] + q);
    WeightAppend(p, [input] + q);
    WeightAppend([input], q);
    WeightAppend(p + q, back);
    WeightAppend(p, q);
    assert [input][..0] == [];
    if back != [] { assert |back| == 1 && back[..0] == [] && Weight(back) == 1; }
  }

  datatype Pick = Pick(pick: nat, dedupe: Port, store: Port)

  predicate Schedulable(l: Loop, deduping: bool, picks: seq<Pick>)
    decreases |picks|
  {
    picks != [] ==>
      && picks[0].pick < |l.pending|
      && Schedulable(Turn(l, deduping, picks[0].pick, picks[0].dedupe, picks[0].store), deduping, picks[1..])
  }

  /** Feeding every published fact back ends: no schedule takes more turns than the initial weight. */
  lemma {:induction false} LoopEnds(l: Loop, deduping: bool, picks: seq<Pick>)
    requires Schedulable(l, deduping, picks)
    ensures |picks| <= Weight(l.pending)
    decreases |picks|
  {
    if picks != [] {
      var p := picks[0];
      TurnShrinks(l, deduping, p.pick, p.dedupe, p.store);
      LoopEnds(Turn(l, deduping, p.pick, p.dedupe, p.store), deduping, picks[1..]);
    }
  }

  function WithoutEchoes(inputs: seq<Input>): seq<Input> {
    if inputs == [] then []
    else (if Publishes(inputs[0]) then [inputs[0]] else []) + WithoutEchoes(inputs[1..])
  }

  /** Own facts and unknown kinds, wherever they arrive, change nothing. */
  lemma {:induction false} EchoesAreInert(w: World, deduping: bool, inputs: seq<Input>)
    ensures Ran(w, deduping, WithoutEchoes(inputs)) == Ran(w, deduping, inputs)
    decreases |inputs|
  {
    if inputs != [] {
      var rest := WithoutEchoes(inputs[1..]);
      EchoesAreInert(Next(w, deduping, inputs[0]), deduping, inputs[1..]);
      if Publishes(inputs[0]) {
        assert WithoutEchoes(inputs) == [inputs[0]] + rest && ([inputs[0]] + rest)[1..] == rest;
      } else {
        assert WithoutEchoes(inputs) == rest && Next(w, deduping, inputs[0]) == w;
      }
    }
  }

  // ------------------------------------------------------------ the exact count

  /** The consumer's calls of DecRef on `key` that reached the store. */
  function DropsOn(log: seq<Attempt>, key: string): nat {
    if log == [] then 0
    else DropsOn(log[..|log| - 1], key) + if log[|log| - 1].key == key && !log[|log| - 1].store.NeverRan? then 1 else 0
  }

  /** Those of them that found the count at zero already. */
  function FlooredOn(w: World, deduping: bool, inputs: seq<Input>, key: string): nat
    decreases |inputs|
  {
    if inputs == [] then 0
    else
      var w' := Next(w, deduping, inputs[0]);
      (if key in w.refs && w.refs[key] == 0 && DropsOn(w'.attempts, key) > DropsOn(w.attempts, key) then 1 else 0)
      + FlooredOn(w', deduping, inputs[1..], key)
  }

  lemma DropsSnoc(log: seq<Attempt>, a: Attempt, key: string)
    ensures DropsOn(log + [a], key) == DropsOn(log, key) + if a.key == key && !a.store.NeverRan? then 1 else 0
  {
    assert (log + [a])[..|log|] == log;
  }

  lemma OneStepBalances(w: World, deduping: bool, input: Input, key: string)
    requires key in w.refs
    ensures
      var w' := Next(w, deduping, input);
      var drops := DropsOn(w'.attempts, key) - DropsOn(w.attempts, key);
      && key in w'.refs && 0 <= drops <= 1
      && w'.refs[key] == w.refs[key] + Additions([input], key) - (if w.refs[key] == 0 then 0 else drops)
      && (Additions([input], key) > 0 ==> drops == 0)
  {
    assert [input][1..] == [];
    if input.Deliver? {
      DropsSnoc(w.attempts, Attempt(input.event.id, input.event.key, input.store), key);
    }
  }

  /** The exact count of an object over every run: what it was, plus the references added, less the decrements
      that reached the store and did not find it at zero. */
  lemma {:induction false} CountExactly(w: World, deduping: bool, inputs: seq<Input>, key: string)
    requires key in w.refs
    ensures
      var end := Ran(w, deduping, inputs);
      && key in end.refs
      && end.refs[key] + DropsOn(end.attempts, key)
         == w.refs[key] + Additions(inputs, key) + DropsOn(w.attempts, key) + FlooredOn(w, deduping, inputs, key)
    decreases |inputs|
  {
    if inputs != [] {
      OneStepBalances(w, deduping, inputs[0], key);
      HeadAndRest(inputs, key);
      CountExactly(Next(w, deduping, inputs[0]), deduping, inputs[1..], key);
    }
  }

  function Fact(added: bool, key: string, count: nat): Event {
    Event(if added then "ref_added" else "ref_removed", key, "", count)
  }

  /** What is announced: a fact goes out exactly if an answered call added or dropped a reference to an object
      that exists, and it names the change, the object and its new count. */
  lemma FactTellsChange(w: World, deduping: bool, input: Input)
    ensures
      var w' := Next(w, deduping, input);
      var out := Published(w, w');
      var key := if input.Reference? then input.key else input.event.key;
      var attempted := input.Reference? || |w'.attempts| > |w.attempts|;
      && (out != [] <==> attempted && input.store.Answered? && key in w.refs)
      && (out != [] ==> (key in w'.refs && out == [Fact(input.Reference?, key, w'.refs[key])]))
      && w'.facts == w.facts + out
  {
  }

  /** What the consumer leaves alone: everything but a dereference that names an object. */
  lemma IgnoredExactly(w: World, deduping: bool, e: Event, dedupe: Port, store: Port)
    ensures e.kind != "dereference" || e.key == "" ==> Handled(w, deduping, e, dedupe, store) == w
    ensures e.kind == "dereference" && e.key != "" && (!deduping || e.id == "" || (dedupe.Answered? && e.id !in w.seen)) ==>
      Handled(w, deduping, e, dedupe, store).attempts == w.attempts + [Attempt(e.id, e.key, store)]
  {
  }
}
