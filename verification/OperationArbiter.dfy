/** Choosing one draft among the candidates of several recognisers. */
module OperationArbiter {
  import opened Base
  import opened Types
  import opened WorkflowEngine
  import opened PolicyGates

  datatype Source = LLM | CatalogAlias | WorkflowSlot | WorkflowControl | Legacy | OtherSource

  datatype MatchKind =
    | ExactAlias | ContainedAlias | ExactWorkflowControl | ExactCandidate | StructuredSlot | LegacyRule | LLMMatch | NoMatchKind

  datatype OperationCandidate = OperationCandidate(
    act: Act, operation: Operation, source: Source, matchKind: MatchKind, confidence: real)

  /** `operationCandidateRank`: the kind of match decides, and only without one the source. */
  function Rank(c: OperationCandidate): nat {
    match c.matchKind
    case ExactAlias => 100
    case ExactWorkflowControl => 100
    case ExactCandidate => 100
    case LLMMatch => 80
    case StructuredSlot => 70
    case ContainedAlias => 20
    case LegacyRule => 10
    case NoMatchKind =>
      match c.source
      case CatalogAlias => 50
      case LLM => 40
      case WorkflowSlot => 30
      case WorkflowControl => 20
      case Legacy => 10
      case OtherSource => 0
  }

  /** `candidateIdentity`: act and operation, joined by a character neither act contains. */
  function Identity(c: OperationCandidate): (Act, Operation) { (c.act, c.operation) }

  // ---- ambiguity ---------------------------------------------------------------------

  predicate Known(c: OperationCandidate) { c.act != UnknownAct }

  /** A known candidate no known candidate outranks. */
  predicate Top(cs: seq<OperationCandidate>, c: OperationCandidate) {
    c in cs && Known(c) && forall d | d in cs && Known(d) :: Rank(d) <= Rank(c)
  }

  /** Two known candidates of the highest rank mean different things. */
  predicate Ambiguous(cs: seq<OperationCandidate>) {
    exists c, d | c in cs && d in cs :: Top(cs, c) && Top(cs, d) && Identity(c) != Identity(d)
  }

  /** The highest known rank so far, and the meanings found at it. */
  predicate Scanned(cs: seq<OperationCandidate>, topRank: int, operations: set<(Act, Operation)>) {
    && (topRank == -1 <==> operations == {})
    && (forall c | c in cs && Known(c) :: Rank(c) <= topRank)
    && (forall c | c in cs && Known(c) && Rank(c) == topRank :: Identity(c) in operations)
    && (forall o | o in operations :: exists c :: c in cs && Known(c) && Rank(c) == topRank && Identity(c) == o)
  }

  /** `ambiguousOperationCandidates`: one pass with a running maximum and a set of meanings. */
  method AmbiguousOperationCandidates(cs: seq<OperationCandidate>) returns (ambiguous: bool)
    ensures ambiguous <==> Ambiguous(cs)
  {
    var topRank: int, operations: set<(Act, Operation)> := -1, {};
    for i := 0 to |cs|
      invariant -1 <= topRank && Scanned(cs[..i], topRank, operations)
    {
      var c := cs[i];
      assert cs[..i + 1] == cs[..i] + [c];
      if Known(c) {
        if Rank(c) > topRank {
          topRank, operations := Rank(c), {Identity(c)};
        } else if Rank(c) == topRank {
          operations := operations + {Identity(c)};
        }
      }
    }
    assert cs[..|cs|] == cs;
    ambiguous := |operations| > 1;
    ScanDecides(cs, topRank, operations);
  }

  lemma PairCounts<T>(s: set<T>, x: T, y: T)
    requires x in s && y in s && x != y
    ensures |s| > 1
  {
    assert y in s - {x};
    assert |s - {x}| == |s| - 1;
  }

  lemma TwoElements<T>(s: set<T>)
    ensures |s| > 1 <==> exists x, y :: x in s && y in s && x != y
  {
    forall x, y | x in s && y in s && x != y ensures |s| > 1 {
      PairCounts(s, x, y);
    }
    if |s| > 1 {
      SomeElement(s);
      var x :| x in s;
      assert |s - {x}| == |s| - 1;
      SomeElement(s - {x});
      var y :| y in s - {x};
      assert x in s && y in s && x != y;
    }
  }

  lemma ScanDecides(cs: seq<OperationCandidate>, topRank: int, operations: set<(Act, Operation)>)
    requires Scanned(cs, topRank, operations)
    ensures |operations| > 1 <==> Ambiguous(cs)
  {
    TwoElements(operations);
    if |operations| > 1 {
      var x, y :| x in operations && y in operations && x != y;
      var c :| c in cs && Known(c) && Rank(c) == topRank && Identity(c) == x;
      var d :| d in cs && Known(d) && Rank(d) == topRank && Identity(d) == y;
      assert Top(cs, c) && Top(cs, d);
    }
  }

  /** The verdict does not depend on the order of the candidates, nor on repetitions. */
  lemma AmbiguityIgnoresOrder(cs: seq<OperationCandidate>, ds: seq<OperationCandidate>)
    requires forall c :: c in cs <==> c in ds
    ensures Ambiguous(cs) <==> Ambiguous(ds)
  {
  }

  // ---- the best of a class --------------------------------------------------------------

  type Class = OperationCandidate -> bool

  predicate Better(c: OperationCandidate, d: OperationCandidate) {
    Rank(c) > Rank(d) || (Rank(c) == Rank(d) && c.confidence > d.confidence)
  }

  /** `bestCandidate`: the first of the best. */
  function Best(cs: seq<OperationCandidate>, matches: Class): Option<OperationCandidate> {
    if cs == [] then None
    else
      var best, c := Best(cs[..|cs| - 1], matches), cs[|cs| - 1];
      if matches(c) && (best.None? || Better(c, best.value)) then Some(c) else best
  }

  method BestCandidate(cs: seq<OperationCandidate>, matches: Class) returns (best: Option<OperationCandidate>)
    ensures best == Best(cs, matches)
  {
    best := None;
    for i := 0 to |cs|
      invariant best == Best(cs[..i], matches)
    {
      assert cs[..i + 1][..i] == cs[..i];
      if matches(cs[i]) && (best.None? || Better(cs[i], best.value)) { best := Some(cs[i]); }
    }
    assert cs[..|cs|] == cs;
  }

  /** There is a best candidate exactly when the class is inhabited, and then none of the class is better. */
  lemma {:induction false} BestIsMaximal(cs: seq<OperationCandidate>, matches: Class)
    ensures Best(cs, matches).None? <==> forall c | c in cs :: !matches(c)
    ensures Best(cs, matches).Some? ==>
              var best := Best(cs, matches).value;
              best in cs && matches(best) && forall c | c in cs && matches(c) :: !Better(c, best)
  {
    if cs != [] {
      var rest, c := cs[..|cs| - 1], cs[|cs| - 1];
      BestIsMaximal(rest, matches);
      assert cs == rest + [c];
      assert forall d | d in cs :: d in rest || d == c;
      assert c in cs && forall d | d in rest :: d in cs;
    }
  }

  // ---- order -----------------------------------------------------------------------------

  /** The same candidates in another order. */
  predicate Rearranged(cs: seq<OperationCandidate>, ds: seq<OperationCandidate>) { multiset(cs) == multiset(ds) }

  /** A candidate of the class that none of the class beats. */
  predicate Unbeaten(cs: seq<OperationCandidate>, matches: Class, c: OperationCandidate) {
    c in cs && matches(c) && forall d | d in cs && matches(d) :: !Better(d, c)
  }

  function Meaning(best: Option<OperationCandidate>): Option<(Act, Operation)> {
    match best case None => None case Some(c) => Some(Identity(c))
  }

  lemma RearrangedHasTheSame(cs: seq<OperationCandidate>, ds: seq<OperationCandidate>)
    requires Rearranged(cs, ds)
    ensures forall c :: c in cs <==> c in ds
  {
    forall c ensures c in cs <==> c in ds {
      assert c in cs <==> c in multiset(cs);
      assert c in ds <==> c in multiset(ds);
    }
  }

  /** The list with one candidate moved to the front. */
  function Fronted(cs: seq<OperationCandidate>, k: nat): (ds: seq<OperationCandidate>)
    requires k < |cs|
    ensures ds != [] && ds[0] == cs[k] && Rearranged(cs, ds)
  {
    assert cs == cs[..k] + [cs[k]] + cs[k + 1..];
    [cs[k]] + (cs[..k] + cs[k + 1..])
  }

  /** An unbeaten candidate that comes first is the one chosen. */
  lemma {:induction false} FirstUnbeatenIsBest(cs: seq<OperationCandidate>, matches: Class)
    requires cs != [] && matches(cs[0]) && forall d | d in cs && matches(d) :: !Better(d, cs[0])
    ensures Best(cs, matches) == Some(cs[0])
  {
    var rest := cs[..|cs| - 1];
    assert cs == rest + [cs[|cs| - 1]];
    if rest == [] {
      assert Best(rest, matches) == None;
    } else {
      assert forall d | d in rest :: d in cs;
      FirstUnbeatenIsBest(rest, matches);
      assert cs[|cs| - 1] in cs;
    }
  }

  lemma AnyUnbeatenCanBeBest(cs: seq<OperationCandidate>, matches: Class, c: OperationCandidate) returns (ds: seq<OperationCandidate>)
    requires Unbeaten(cs, matches, c)
    ensures Rearranged(cs, ds) && ds != [] && ds[0] == c && Best(ds, matches) == Some(c)
  {
    var k :| 0 <= k < |cs| && cs[k] == c;
    ds := Fronted(cs, k);
    RearrangedHasTheSame(cs, ds);
    FirstUnbeatenIsBest(ds, matches);
  }

  /** What a class's choice means is independent of the order of the candidates exactly when all its unbeaten candidates mean the same. */
  lemma BestIgnoresOrderExactly(cs: seq<OperationCandidate>, matches: Class)
    ensures (forall ds | Rearranged(cs, ds) :: Meaning(Best(ds, matches)) == Meaning(Best(cs, matches)))
            <==> (forall c, d | Unbeaten(cs, matches, c) && Unbeaten(cs, matches, d) :: Identity(c) == Identity(d))
  {
    BestIsMaximal(cs, matches);
    if forall c, d | Unbeaten(cs, matches, c) && Unbeaten(cs, matches, d) :: Identity(c) == Identity(d) {
      forall ds | Rearranged(cs, ds) ensures Meaning(Best(ds, matches)) == Meaning(Best(cs, matches)) {
        RearrangedHasTheSame(cs, ds);
        BestIsMaximal(ds, matches);
        if Best(cs, matches).Some? {
          assert Unbeaten(cs, matches, Best(cs, matches).value) && Unbeaten(cs, matches, Best(ds, matches).value);
        }
      }
    }
    if forall ds | Rearranged(cs, ds) :: Meaning(Best(ds, matches)) == Meaning(Best(cs, matches)) {
      forall c, d | Unbeaten(cs, matches, c) && Unbeaten(cs, matches, d) ensures Identity(c) == Identity(d) {
        var first := AnyUnbeatenCanBeBest(cs, matches, c);
        var second := AnyUnbeatenCanBeBest(cs, matches, d);
        assert Meaning(Best(first, matches)) == Meaning(Best(second, matches));
      }
    }
  }

  /** In particular, a choice of the highest known rank does not depend on the order when the candidates are not ambiguous. */
  lemma BestTopMeaningIgnoresOrder(cs: seq<OperationCandidate>, ds: seq<OperationCandidate>, matches: Class)
    requires (forall c :: c in cs <==> c in ds) && !Ambiguous(cs)
    requires forall c | matches(c) :: Known(c)
    requires Best(cs, matches).Some? && Top(cs, Best(cs, matches).value)
    ensures Best(ds, matches).Some? && Identity(Best(ds, matches).value) == Identity(Best(cs, matches).value)
  {
    BestIsMaximal(cs, matches);
    BestIsMaximal(ds, matches);
    var best, other := Best(cs, matches).value, Best(ds, matches).value;
    assert Rank(other) == Rank(best);
    assert Top(cs, other);
  }

  // ---- the decision -----------------------------------------------------------------------

  datatype DecisionKind = Unknown | NewOperation | Continue | AuxiliaryStep | CancelStep | AmbiguousKind

  datatype ArbiterDecision = ArbiterDecision(
    kind: DecisionKind, chosen: Option<OperationCandidate>, act: Act, interrupt: bool)

  predicate Explicit(c: OperationCandidate) { ExplicitNewRequest(c.act) }
  predicate Cancels(c: OperationCandidate) { c.act == WorkflowCancel }
  predicate Continues(c: OperationCandidate) { c.act == WorkflowContinue }

  predicate AuxiliaryFor(c: OperationCandidate, active: Option<WorkflowType>) {
    active.Some? && Auxiliary(active.value, c.operation)
  }

  /** `Decide`: explicit requests first, then cancellation, then continuation, whatever their ranks. */
  function Decided(cs: seq<OperationCandidate>, active: Option<WorkflowType>): ArbiterDecision {
    var explicit, cancel, continue_ := Best(cs, Explicit), Best(cs, Cancels), Best(cs, Continues);
    if cs == [] then ArbiterDecision(Unknown, None, UnknownAct, false)
    else if Ambiguous(cs) then ArbiterDecision(AmbiguousKind, None, UnknownAct, false)
    else if explicit.Some? then
      if AuxiliaryFor(explicit.value, active) then ArbiterDecision(AuxiliaryStep, explicit, WorkflowContinue, false)
      else ArbiterDecision(NewOperation, explicit, explicit.value.act, active.Some?)
    else if cancel.Some? then ArbiterDecision(CancelStep, cancel, WorkflowCancel, false)
    else if continue_.Some? then ArbiterDecision(Continue, continue_, WorkflowContinue, false)
    else ArbiterDecision(Unknown, Some(cs[0]), UnknownAct, false)
  }

  method Decide(cs: seq<OperationCandidate>, active: Option<WorkflowType>) returns (decision: ArbiterDecision)
    ensures decision == Decided(cs, active)
  {
    if |cs| == 0 { return ArbiterDecision(Unknown, None, UnknownAct, false); }
    var ambiguous := AmbiguousOperationCandidates(cs);
    if ambiguous { return ArbiterDecision(AmbiguousKind, None, UnknownAct, false); }
    var best := BestCandidate(cs, Explicit);
    if best.Some? {
      if AuxiliaryFor(best.value, active) { return ArbiterDecision(AuxiliaryStep, best, WorkflowContinue, false); }
      return ArbiterDecision(NewOperation, best, best.value.act, active.Some?);
    }
    best := BestCandidate(cs, Cancels);
    if best.Some? { return ArbiterDecision(CancelStep, best, WorkflowCancel, false); }
    best := BestCandidate(cs, Continues);
    if best.Some? { return ArbiterDecision(Continue, best, WorkflowContinue, false); }
    decision := ArbiterDecision(Unknown, Some(cs[0]), UnknownAct, false);
  }

  predicate SameClass(c: OperationCandidate, d: OperationCandidate) {
    (Explicit(c) && Explicit(d)) || (Cancels(c) && Cancels(d)) || (Continues(c) && Continues(d))
  }

  /** A decision is ambiguous exactly when the candidates are; one that chooses chooses a candidate none of its class beats, and an explicit request whenever there is any. */
  lemma DecisionsChooseTheBestOfAClass(cs: seq<OperationCandidate>, active: Option<WorkflowType>)
    ensures Decided(cs, active).kind == AmbiguousKind <==> Ambiguous(cs)
    ensures var d := Decided(cs, active);
            d.kind != AmbiguousKind && d.kind != Unknown ==>
              && d.chosen.Some? && d.chosen.value in cs
              && (forall c | c in cs && SameClass(c, d.chosen.value) :: !Better(c, d.chosen.value))
              && ((exists c | c in cs :: Explicit(c)) ==> Explicit(d.chosen.value))
    ensures Decided(cs, active).kind == Unknown <==> !Ambiguous(cs) && forall c | c in cs :: !Known(c)
  {
    BestIsMaximal(cs, Explicit);
    BestIsMaximal(cs, Cancels);
    BestIsMaximal(cs, Continues);
  }

  // ---- when the decision depends on the order ---------------------------------------------

  /** The class the decision is made in. */
  function DecidingClass(cs: seq<OperationCandidate>): Class {
    if exists c | c in cs :: Explicit(c) then Explicit
    else if exists c | c in cs :: Cancels(c) then Cancels
    else Continues
  }

  /** The candidates the decision can fall on: the unbeaten ones of the deciding class, or any at all when none is known. */
  predicate Contender(cs: seq<OperationCandidate>, c: OperationCandidate) {
    if exists d | d in cs :: Known(d) then Unbeaten(cs, DecidingClass(cs), c) else c in cs
  }

  /** What a decision tells its caller: everything but which of equal candidates it was read from. */
  datatype Verdict = Verdict(kind: DecisionKind, act: Act, interrupt: bool, meaning: Option<(Act, Operation)>)

  function VerdictOf(d: ArbiterDecision): Verdict { Verdict(d.kind, d.act, d.interrupt, Meaning(d.chosen)) }

  /** The verdict that falls on a candidate depends on its meaning alone. */
  function VerdictOn(meaning: (Act, Operation), active: Option<WorkflowType>): Verdict {
    var (act, operation) := meaning;
    if ExplicitNewRequest(act) then
      if active.Some? && Auxiliary(active.value, operation) then Verdict(AuxiliaryStep, WorkflowContinue, false, Some(meaning))
      else Verdict(NewOperation, act, active.Some?, Some(meaning))
    else if act == WorkflowCancel then Verdict(CancelStep, WorkflowCancel, false, Some(meaning))
    else if act == WorkflowContinue then Verdict(Continue, WorkflowContinue, false, Some(meaning))
    else Verdict(Unknown, UnknownAct, false, Some(meaning))
  }

  lemma EveryActHasItsClass(c: OperationCandidate)
    ensures Known(c) <==> Explicit(c) || Cancels(c) || Continues(c)
  {
  }

  /** Without ambiguity the decision falls on a contender, and on no other. */
  lemma DecisionFallsOnAContender(cs: seq<OperationCandidate>, active: Option<WorkflowType>)
    requires cs != [] && !Ambiguous(cs)
    ensures var d := Decided(cs, active);
            d.chosen.Some? && Contender(cs, d.chosen.value) && VerdictOf(d) == VerdictOn(Identity(d.chosen.value), active)
  {
    BestIsMaximal(cs, Explicit);
    BestIsMaximal(cs, Cancels);
    BestIsMaximal(cs, Continues);
    forall c | c in cs ensures Known(c) <==> Explicit(c) || Cancels(c) || Continues(c) { EveryActHasItsClass(c); }
    assert cs[0] in cs;
  }

  /** Every contender is the choice for some order of the candidates. */
  lemma AnyContenderCanBeChosen(cs: seq<OperationCandidate>, active: Option<WorkflowType>, c: OperationCandidate)
    returns (ds: seq<OperationCandidate>)
    requires !Ambiguous(cs) && Contender(cs, c)
    ensures Rearranged(cs, ds) && VerdictOf(Decided(ds, active)) == VerdictOn(Identity(c), active)
  {
    if exists d | d in cs :: Known(d) {
      ds := AnyUnbeatenCanBeBest(cs, DecidingClass(cs), c);
    } else {
      var k :| 0 <= k < |cs| && cs[k] == c;
      ds := Fronted(cs, k);
    }
    RearrangedHasTheSame(cs, ds);
    AmbiguityIgnoresOrder(cs, ds);
    DecisionFallsOnAContender(ds, active);
    ChosenFirst(cs, ds, active, c);
  }

  lemma ChosenFirst(cs: seq<OperationCandidate>, ds: seq<OperationCandidate>, active: Option<WorkflowType>, c: OperationCandidate)
    requires ds != [] && ds[0] == c && !Ambiguous(ds) && Contender(cs, c) && forall d :: d in cs <==> d in ds
    requires (exists d | d in cs :: Known(d)) ==> Best(ds, DecidingClass(cs)) == Some(c)
    ensures Decided(ds, active).chosen == Some(c)
  {
    BestIsMaximal(ds, Explicit);
    BestIsMaximal(ds, Cancels);
    BestIsMaximal(ds, Continues);
    forall d | d in cs ensures Known(d) <==> Explicit(d) || Cancels(d) || Continues(d) { EveryActHasItsClass(d); }
  }

  /** The decision is independent of the order of the candidates exactly when they are ambiguous or all contenders mean the same. */
  lemma DecisionIgnoresOrderExactly(cs: seq<OperationCandidate>, active: Option<WorkflowType>)
    ensures (forall ds | Rearranged(cs, ds) :: VerdictOf(Decided(ds, active)) == VerdictOf(Decided(cs, active)))
            <==> Ambiguous(cs) || forall c, d | Contender(cs, c) && Contender(cs, d) :: Identity(c) == Identity(d)
  {
    if Ambiguous(cs) || forall c, d | Contender(cs, c) && Contender(cs, d) :: Identity(c) == Identity(d) {
      forall ds | Rearranged(cs, ds) ensures VerdictOf(Decided(ds, active)) == VerdictOf(Decided(cs, active)) {
        SettledDecision(cs, ds, active);
      }
    } else {
      var c, d :| Contender(cs, c) && Contender(cs, d) && Identity(c) != Identity(d);
      UnsettledDecision(cs, active, c, d);
    }
  }

  lemma UnsettledDecision(cs: seq<OperationCandidate>, active: Option<WorkflowType>, c: OperationCandidate, d: OperationCandidate)
    requires !Ambiguous(cs) && Contender(cs, c) && Contender(cs, d) && Identity(c) != Identity(d)
    ensures exists ds | Rearranged(cs, ds) :: VerdictOf(Decided(ds, active)) != VerdictOf(Decided(cs, active))
  {
    var first := AnyContenderCanBeChosen(cs, active, c);
    var second := AnyContenderCanBeChosen(cs, active, d);
    assert VerdictOf(Decided(first, active)) != VerdictOf(Decided(second, active));
  }

  lemma SettledDecision(cs: seq<OperationCandidate>, ds: seq<OperationCandidate>, active: Option<WorkflowType>)
    requires Rearranged(cs, ds)
    requires Ambiguous(cs) || forall c, d | Contender(cs, c) && Contender(cs, d) :: Identity(c) == Identity(d)
    ensures VerdictOf(Decided(ds, active)) == VerdictOf(Decided(cs, active))
  {
    RearrangedHasTheSame(cs, ds);
    AmbiguityIgnoresOrder(cs, ds);
    assert |cs| == |multiset(cs)| && |ds| == |multiset(ds)|;
    if cs != [] && !Ambiguous(cs) {
      DecisionFallsOnAContender(cs, active);
      DecisionFallsOnAContender(ds, active);
      SameContenders(cs, ds);
    }
  }

  lemma SameContenders(cs: seq<OperationCandidate>, ds: seq<OperationCandidate>)
    requires forall c :: c in cs <==> c in ds
    ensures forall c :: Contender(cs, c) <==> Contender(ds, c)
  {
    assert DecidingClass(cs) == DecidingClass(ds);
  }

  /** Without ambiguity the choice can still depend on the order: two equally good explicit requests below the highest rank are told apart by position alone. */
  lemma ChoiceCanDependOnOrder(a: Operation, b: Operation)
    requires a != b
    ensures var slot := OperationCandidate(WorkflowContinue, Start, WorkflowSlot, ExactCandidate, 1.0);
            var first := OperationCandidate(ReadQuery, a, LLM, LLMMatch, 0.9);
            var second := OperationCandidate(ReadQuery, b, LLM, LLMMatch, 0.9);
            && !Ambiguous([slot, first, second])
            && Decided([slot, first, second], None).chosen == Some(first)
            && Decided([slot, second, first], None).chosen == Some(second)
  {
    var slot := OperationCandidate(WorkflowContinue, Start, WorkflowSlot, ExactCandidate, 1.0);
    var first := OperationCandidate(ReadQuery, a, LLM, LLMMatch, 0.9);
    var second := OperationCandidate(ReadQuery, b, LLM, LLMMatch, 0.9);
    BestOfThree(slot, first, second);
    BestOfThree(slot, second, first);
    forall c | Top([slot, first, second], c) ensures c == slot {
      assert slot in [slot, first, second];
    }
    AmbiguityIgnoresOrder([slot, first, second], [slot, second, first]);
  }

  lemma BestOfThree(slot: OperationCandidate, x: OperationCandidate, y: OperationCandidate)
    requires !Explicit(slot) && Explicit(x) && Explicit(y) && !Better(y, x)
    ensures Best([slot, x, y], Explicit) == Some(x)
  {
    var one, two, three := [slot], [slot, x], [slot, x, y];
    assert one[..|one| - 1] == [] && one[|one| - 1] == slot;
    assert Best(one, Explicit) == None;
    assert two[..|two| - 1] == one && two[|two| - 1] == x;
    assert Best(two, Explicit) == Some(x);
    assert three[..|three| - 1] == two && three[|three| - 1] == y;
  }
}
