/** Putting runs of the delivery system together, and runs on which nothing goes wrong. */
module Runs {
  import opened Delivery

  lemma {:induction false} RunAppend(s: System, p: seq<Step>, q: seq<Step>)
    requires Legal(s, p) && Legal(Run(s, p), q)
    ensures Legal(s, p + q) && Run(s, p + q) == Run(Run(s, p), q)
    decreases |p|
  {
    if p == [] {
      assert p + q == q;
    } else {
      assert (p + q)[1..] == p[1..] + q;
      RunAppend(Taken(s, p[0]), p[1..], q);
    }
  }

  lemma RunOne(s: System, st: Step)
    requires Enabled(s, st)
    ensures Legal(s, [st]) && Run(s, [st]) == Taken(s, st)
  {
    assert [st][1..] == [];
    assert Legal(Taken(s, st), []);
  }

  lemma RunThree(s: System, s1: System, s2: System, a: Step, b: Step, c: Step)
    requires Enabled(s, a) && s1 == Taken(s, a) && Enabled(s1, b) && s2 == Taken(s1, b) && Enabled(s2, c)
    ensures Legal(s, [a, b, c]) && Run(s, [a, b, c]) == Taken(s2, c)
  {
    RunOne(s, a);
    RunOne(s1, b);
    RunOne(s2, c);
    RunAppend(s1, [b], [c]);
    RunAppend(s, [a], [b] + [c]);
    assert [a] + ([b] + [c]) == [a, b, c];
  }

  /** A step in which nothing goes wrong and nothing is published: pages and frames go through, frames are
      planned as they arrived and batches are written whole, oldest first. */
  predicate Smooth(st: Step) {
    match st
    case Connect(_, _, _) => true
    case Fetch(_) => true
    case Emit(room) => room
    case Pump(written) => written
    case Plan(at) => at == 0
    case Save(job, _) => job == 0
    case Complete(job) => job == 0
    case Ack(_) => true
    case _ => false
  }

  ghost predicate AllSmooth(steps: seq<Step>) {
    forall i :: 0 <= i < |steps| ==> Smooth(steps[i])
  }
}
