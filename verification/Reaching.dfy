/** Which states of the protocol lead to which. */
module Reaching {
  import opened BusinessKey
  import opened Protocol

  ghost predicate Reaches(digest: Digest, s: System, t: System) {
    exists actions :: Leads(digest, s, actions, t)
  }

  lemma {:induction false} Appends(digest: Digest, s: System, first: seq<Action>, m: System, second: seq<Action>, t: System)
    requires Leads(digest, s, first, m) && Leads(digest, m, second, t)
    ensures Leads(digest, s, first + second, t)
    decreases |first|
  {
    if first == [] {
      assert first + second == second;
    } else {
      Appends(digest, Perform(digest, s, first[0]), first[1..], m, second, t);
      assert (first + second)[1..] == first[1..] + second;
    }
  }

  lemma Onward(digest: Digest, s: System, m: System, t: System)
    requires Reaches(digest, s, m) && Reaches(digest, m, t)
    ensures Reaches(digest, s, t)
  {
    var first :| Leads(digest, s, first, m);
    var second :| Leads(digest, m, second, t);
    Appends(digest, s, first, m, second, t);
  }

  lemma OneStep(digest: Digest, s: System, a: Action)
    requires Enabled(digest, s, a)
    ensures Reaches(digest, s, Perform(digest, s, a))
  {
    assert [a][1..] == [];
    assert Leads(digest, s, [a], Perform(digest, s, a));
  }

  lemma ReachableFurther(digest: Digest, s: System, t: System)
    requires Reachable(digest, s) && Reaches(digest, s, t)
    ensures Reachable(digest, t)
  {
    var start, first :| Initial(start) && Leads(digest, start, first, s);
    var second :| Leads(digest, s, second, t);
    Appends(digest, start, first, s, second, t);
  }

  lemma Stays(digest: Digest, s: System)
    ensures Reaches(digest, s, s)
  {
    assert Leads(digest, s, [], s);
  }

  /** A step whose continuations are known leads to where they start. */
  lemma ByContinuation(digest: Digest, s: System, first: seq<Action>, s': System)
    requires forall rest, end :: Leads(digest, s', rest, end) ==> Leads(digest, s, first + rest, end)
    ensures Reaches(digest, s, s')
  {
    assert Leads(digest, s', [], s');
    assert Leads(digest, s, first + [], s');
  }
}
