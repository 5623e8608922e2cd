/** Safety of the store over whole runs of arbitrary calls by arbitrary callers. */
module StoreRuns {
  import opened Base
  import opened Types
  import opened ReservationCodec
  import opened WorkflowStore

  /** `states[i + 1]` is what `calls[i]` makes of `states[i]`. */
  predicate Run(states: seq<Store>, calls: seq<Call>) {
    && |states| == |calls| + 1
    && forall i {:trigger calls[i]} | 0 <= i < |calls| :: states[i + 1] == Apply(states[i], calls[i]).0
  }

  lemma PrependCall(s: Store, c: Call, states: seq<Store>, calls: seq<Call>)
    requires Run(states, calls) && states[0] == Apply(s, c).0
    ensures Run([s] + states, [c] + calls)
  {
    var all := [c] + calls;
    forall i {:trigger all[i]} | 0 <= i < |all| ensures ([s] + states)[i + 1] == Apply(([s] + states)[i], all[i]).0 {
      if i > 0 { assert all[i] == calls[i - 1] && ([s] + states)[i] == states[i - 1]; }
    }
  }

  predicate Acts(c: Call) { !c.contextDone && CompleteKey(c.key) }

  /** The invariant holds in every state of every run that starts from it; in particular from the empty store. */
  lemma {:induction false} InvariantHoldsThroughout(states: seq<Store>, calls: seq<Call>, i: nat)
    requires Run(states, calls) && StoreInv(states[0]) && i < |states|
    ensures StoreInv(states[i])
  {
    if i > 0 {
      InvariantHoldsThroughout(states, calls, i - 1);
      ApplyKeepsInvariant(states[i - 1], calls[i - 1]);
    }
  }

  // ---- no reserved write is lost -------------------------------------------------

  predicate ReleasedBy(s: Store, c: Call, key: WorkflowKey) {
    Acts(c) && c.key == key && Releases(s, key, c.op)
  }

  predicate RecordedBy(s: Store, c: Call, key: WorkflowKey) {
    Acts(c) && c.key == key && Records(s, key, c.op)
  }

  /** One call either keeps the write or is its release. */
  lemma CallKeepsWrite(s: Store, c: Call, key: WorkflowKey)
    requires HasExecution(s, key)
    ensures var next := Apply(s, c).0;
            if HasExecution(next, key) then
              && SameWrite(ExecutionAt(s, key), ExecutionAt(next, key))
              && (ExecutionAt(next, key).result != ExecutionAt(s, key).result ==>
                    RecordedBy(s, c, key) && ExecutionAt(next, key).result == Presented(c.op))
            else ReleasedBy(s, c, key)
  {
    if Acts(c) && c.key == key {
      ExecutionMovesOnlyByItsToken(s, key, c.op, c.now);
    } else {
      FailureChangesNothing(s, c);
    }
  }

  /** From state i up to and including state j the key carries the write it carried at i. */
  predicate Carried(states: seq<Store>, key: WorkflowKey, i: nat, j: nat)
    requires i <= j < |states| && HasExecution(states[i], key)
  {
    forall q | i <= q <= j ::
      HasExecution(states[q], key) && SameWrite(ExecutionAt(states[i], key), ExecutionAt(states[q], key))
  }

  lemma CarriedOnOrReleased(states: seq<Store>, calls: seq<Call>, key: WorkflowKey, i: nat, j: nat)
    requires Run(states, calls) && i <= j < |calls| && HasExecution(states[i], key) && Carried(states, key, i, j)
    ensures Carried(states, key, i, j + 1) || ReleasedBy(states[j], calls[j], key)
  {
    assert HasExecution(states[j], key);
    CallKeepsWrite(states[j], calls[j], key);
  }

  /** No reserved write is lost: in any run, whatever calls arrive, an execution present at one time is either still there later, for the same business action, or some call in between released it; and that release came from the holder of its token, after its result had been recorded. */
  lemma {:induction false} NoReservedWriteIsLost(states: seq<Store>, calls: seq<Call>, key: WorkflowKey, i: nat, j: nat)
    requires Run(states, calls) && i <= j < |states| && HasExecution(states[i], key)
    ensures Carried(states, key, i, j)
            || exists m :: i <= m < j && Carried(states, key, i, m) && ReleasedBy(states[m], calls[m], key)
    decreases j
  {
    if j > i {
      NoReservedWriteIsLost(states, calls, key, i, j - 1);
      if Carried(states, key, i, j - 1) { CarriedOnOrReleased(states, calls, key, i, j - 1); }
    }
  }

  /** The call recorded this very result. */
  predicate RecordedAs(s: Store, c: Call, key: WorkflowKey, result: Option<ExecutionResult>) {
    RecordedBy(s, c, key) && Presented(c.op) == result
  }

  lemma OtherResultIsPresented(s: Store, c: Call, key: WorkflowKey)
    requires HasExecution(s, key) && HasExecution(Apply(s, c).0, key) && ExecutionAt(Apply(s, c).0, key).result != ExecutionAt(s, key).result
    ensures RecordedAs(s, c, key, ExecutionAt(Apply(s, c).0, key).result)
  {
    CallKeepsWrite(s, c, key);
  }

  /** A result never appears or changes by itself: if an execution has another one later, a call in between recorded it, presenting the token the execution held at that moment, the reserved business key and the very result found later. */
  lemma ResultsComeFromTheTokenHolder(states: seq<Store>, calls: seq<Call>, key: WorkflowKey, i: nat, j: nat)
    requires Run(states, calls) && i <= j < |states| && HasExecution(states[i], key)
    requires Carried(states, key, i, j)
    requires ExecutionAt(states[i], key).result != ExecutionAt(states[j], key).result
    ensures exists m :: i <= m < j && RecordedAs(states[m], calls[m], key, ExecutionAt(states[j], key).result)
  {
    var results := seq(|states|, q requires 0 <= q < |states| => ResultIn(states[q], key));
    var m := LastChange(results, i, j);
    CallRecords(states, calls, key, m);
  }

  function ResultIn(s: Store, key: WorkflowKey): Option<ExecutionResult> {
    if HasExecution(s, key) then ExecutionAt(s, key).result else None
  }

  /** What is different later was last changed somewhere in between. */
  lemma {:induction false} LastChange<T>(xs: seq<T>, i: nat, j: nat) returns (m: nat)
    requires i <= j < |xs| && xs[i] != xs[j]
    ensures i <= m < j && xs[m] != xs[m + 1] == xs[j]
    decreases j
  {
    if xs[j - 1] == xs[j] { m := LastChange(xs, i, j - 1); } else { m := j - 1; }
  }

  lemma CallRecords(states: seq<Store>, calls: seq<Call>, key: WorkflowKey, m: nat)
    requires Run(states, calls) && m < |calls| && HasExecution(states[m], key) && HasExecution(states[m + 1], key)
    requires ExecutionAt(states[m], key).result != ExecutionAt(states[m + 1], key).result
    ensures RecordedAs(states[m], calls[m], key, ExecutionAt(states[m + 1], key).result)
  {
    assert states[m + 1] == Apply(states[m], calls[m]).0;
    OtherResultIsPresented(states[m], calls[m], key);
  }

  lemma LastCall(states: seq<Store>, calls: seq<Call>, j: nat)
    requires Run(states, calls) && 0 < j < |states|
    ensures states[j] == Apply(states[j - 1], calls[j - 1]).0
  {
    assert calls[j - 1] == calls[j - 1];
  }

  // ---- token fencing ---------------------------------------------------------------

  predicate Holds(s: Store, key: WorkflowKey, token: string) {
    HasExecution(s, key) && TokenAt(s, key) == token
  }

  ghost predicate Held(s: Store, token: string) { exists key :: Holds(s, key, token) }

  /** The token a reservation or takeover puts in place, when it succeeds. */
  function Installs(s: Store, c: Call): Option<string> {
    if Succeeds(s, c) then InstalledBy(c.op) else None
  }

  function InstalledBy(op: Op): Option<string> {
    match op
    case CreateReserved(_, r) => TokenOf(Canonical(r))
    case Reserve(_, _, r) => TokenOf(Canonical(r))
    case Takeover(_, _, r) => TokenOf(Canonical(r))
    case _ => None
  }

  function TokenOf(r: Option<Reservation>): Option<string> {
    match r case None => None case Some(r) => Some(r.token)
  }

  lemma SuccessActs(s: Store, c: Call)
    requires Succeeds(s, c)
    ensures Acts(c) && Apply(s, c) == ApplyTo(s, c.key, c.op, c.now)
  {
  }

  /** The token call i installs was not held at the start and was not installed before. */
  ghost predicate FreshAt(states: seq<Store>, calls: seq<Call>, i: nat)
    requires i < |calls| <= |states|
  {
    match Installs(states[i], calls[i])
    case None => true
    case Some(t) => !Held(states[0], t) && forall j | 0 <= j < i :: Installs(states[j], calls[j]) != Some(t)
  }

  /** Every installed token is new: `newExecutionToken` draws 24 random bytes. */
  ghost predicate FreshTokens(states: seq<Store>, calls: seq<Call>)
    requires Run(states, calls)
  {
    forall i | 0 <= i < |calls| :: FreshAt(states, calls, i)
  }

  lemma TokenArrivesOnlyByInstalling(s: Store, c: Call, key: WorkflowKey, token: string)
    requires Holds(Apply(s, c).0, key, token) && !Holds(s, key, token)
    ensures Installs(s, c) == Some(token) && c.key == key
  {
    FailureChangesNothing(s, c);
    if HasExecution(s, key) {
      ExecutionMovesOnlyByItsToken(s, key, c.op, c.now);
      InstalledByTakeover(s, c, token);
    } else {
      ExecutionAppearsOnlyByReservation(s, key, c.op, c.now);
    }
  }

  lemma InstalledByTakeover(s: Store, c: Call, token: string)
    requires HasExecution(s, c.key) && Holds(Apply(s, c).0, c.key, token) && !Holds(s, c.key, token)
    requires Acts(c) && TakesOver(s, c.key, c.op, c.now)
    requires Canonical(c.op.successor).value.token == token
    ensures Installs(s, c) == Some(token)
  {
    if !Succeeds(s, c) { FailedCallBringsNoToken(s, c, token); }
  }

  lemma FailedCallBringsNoToken(s: Store, c: Call, token: string)
    requires !Succeeds(s, c) && Holds(Apply(s, c).0, c.key, token)
    ensures Holds(s, c.key, token)
  {
    FailureChangesNothing(s, c);
  }

  lemma TokenArrives(s: Store, c: Call, token: string)
    requires Held(Apply(s, c).0, token) && !Held(s, token)
    ensures Installs(s, c) == Some(token)
  {
    var key :| Holds(Apply(s, c).0, key, token);
    TokenArrivesOnlyByInstalling(s, c, key, token);
  }

  /** Where a held token came from. */
  lemma {:induction false} HeldTokenWasInstalled(states: seq<Store>, calls: seq<Call>, i: nat, token: string)
    requires Run(states, calls) && i < |states| && Held(states[i], token)
    ensures Held(states[0], token) || exists j :: 0 <= j < i && Installs(states[j], calls[j]) == Some(token)
  {
    if i > 0 {
      if Held(states[i - 1], token) {
        HeldTokenWasInstalled(states, calls, i - 1, token);
      } else {
        TokenArrives(states[i - 1], calls[i - 1], token);
      }
    }
  }

  /** A token about to be installed was not held at any earlier time. */
  lemma InstalledTokenIsNew(states: seq<Store>, calls: seq<Call>, a: nat, i: nat, token: string)
    requires Run(states, calls) && FreshTokens(states, calls)
    requires a <= i < |calls| && Installs(states[i], calls[i]) == Some(token)
    ensures !Held(states[a], token)
  {
    assert FreshAt(states, calls, i);
    if Held(states[a], token) { HeldTokenWasInstalled(states, calls, a, token); }
  }

  lemma RetiredTokenIsNotInstalled(states: seq<Store>, calls: seq<Call>, a: nat, i: nat, token: string)
    requires Run(states, calls) && FreshTokens(states, calls)
    requires a <= i < |calls| && Held(states[a], token) && !Held(states[i], token)
    ensures !Held(states[i + 1], token)
  {
    var next := Apply(states[i], calls[i]).0;
    if Held(next, token) {
      TokenArrives(states[i], calls[i], token);
      InstalledTokenIsNew(states, calls, a, i, token);
    }
  }

  /** A token once held and then gone never comes back, not even when its key is deleted and created again. */
  lemma {:induction false} RetiredTokenStaysRetired(states: seq<Store>, calls: seq<Call>, a: nat, i: nat, j: nat, token: string)
    requires Run(states, calls) && FreshTokens(states, calls)
    requires a <= i <= j < |states| && Held(states[a], token) && !Held(states[i], token)
    ensures !Held(states[j], token)
    decreases j
  {
    if j > i {
      RetiredTokenStaysRetired(states, calls, a, i, j - 1, token);
      RetiredTokenIsNotInstalled(states, calls, a, j - 1, token);
    }
  }

  ghost predicate UniqueTokens(s: Store) {
    forall k, l, t | Holds(s, k, t) && Holds(s, l, t) :: k == l
  }

  lemma FreshInstallKeepsUnique(s: Store, c: Call)
    requires UniqueTokens(s)
    requires forall t | Installs(s, c) == Some(t) :: !Held(s, t)
    ensures UniqueTokens(Apply(s, c).0)
  {
    var next := Apply(s, c).0;
    forall k, l, t | Holds(next, k, t) && Holds(next, l, t) ensures k == l {
      if !Holds(s, k, t) { TokenArrivesOnlyByInstalling(s, c, k, t); }
      if !Holds(s, l, t) { TokenArrivesOnlyByInstalling(s, c, l, t); }
    }
  }

  lemma {:induction false} TokensStayUnique(states: seq<Store>, calls: seq<Call>, i: nat)
    requires Run(states, calls) && FreshTokens(states, calls) && UniqueTokens(states[0])
    requires i < |states|
    ensures UniqueTokens(states[i])
  {
    if i > 0 {
      TokensStayUnique(states, calls, i - 1);
      FreshCallKeepsUnique(states, calls, i - 1);
    }
  }

  lemma FreshCallKeepsUnique(states: seq<Store>, calls: seq<Call>, i: nat)
    requires Run(states, calls) && FreshTokens(states, calls) && i < |calls| && UniqueTokens(states[i])
    ensures UniqueTokens(states[i + 1])
  {
    var s, c := states[i], calls[i];
    if Installs(s, c).Some? { InstalledTokenIsNew(states, calls, i, i, Installs(s, c).value); }
    FreshInstallKeepsUnique(s, c);
    assert states[i + 1] == Apply(s, c).0;
  }

  predicate Presents(op: Op, token: string) {
    && (op.RecordResult? || op.Finalize? || op.DeleteReserved? || op.Takeover? || op.MarkRecoveryRequired?)
    && Trim(op.token) == token
  }

  lemma UnheldTokenFails(s: Store, c: Call, token: string)
    requires Presents(c.op, token) && !Held(s, token)
    ensures !Succeeds(s, c)
  {
    assert !Holds(s, c.key, token);
  }

  /** A token that leaves the one key it was held under is held nowhere. */
  lemma LeavingTokenIsUnheld(s: Store, c: Call, token: string)
    requires UniqueTokens(s) && Holds(s, c.key, token) && !Holds(Apply(s, c).0, c.key, token)
    ensures !Held(Apply(s, c).0, token)
  {
    FailureChangesNothing(s, c);
    forall k ensures !Holds(Apply(s, c).0, k, token) {
      if k != c.key { assert Holds(Apply(s, c).0, k, token) == Holds(s, k, token); }
    }
  }

  lemma LeftTokenIsRetired(states: seq<Store>, calls: seq<Call>, i: nat, token: string)
    requires Run(states, calls) && FreshTokens(states, calls) && UniqueTokens(states[0]) && i < |calls|
    requires Holds(states[i], calls[i].key, token) && !Holds(states[i + 1], calls[i].key, token)
    ensures Held(states[i], token) && !Held(states[i + 1], token)
  {
    TokensStayUnique(states, calls, i);
    LeavingTokenIsUnheld(states[i], calls[i], token);
  }

  lemma LeavingTokenNeverActs(states: seq<Store>, calls: seq<Call>, i: nat, j: nat, token: string)
    requires Run(states, calls) && FreshTokens(states, calls) && UniqueTokens(states[0])
    requires i < j < |calls|
    requires Holds(states[i], calls[i].key, token) && !Holds(states[i + 1], calls[i].key, token)
    requires Presents(calls[j].op, token)
    ensures !Succeeds(states[j], calls[j])
  {
    LeftTokenIsRetired(states, calls, i, token);
    RetiredTokenNeverActs(states, calls, i, j, token);
  }

  lemma RetiredTokenNeverActs(states: seq<Store>, calls: seq<Call>, i: nat, j: nat, token: string)
    requires Run(states, calls) && FreshTokens(states, calls)
    requires i < j < |calls| && Held(states[i], token) && !Held(states[i + 1], token) && Presents(calls[j].op, token)
    ensures !Succeeds(states[j], calls[j])
  {
    RetiredTokenStaysRetired(states, calls, i, i + 1, j, token);
    UnheldTokenFails(states[j], calls[j], token);
  }

  /** Fencing: once a takeover has replaced a token, no later record, finalize, delete, takeover or deferral that presents the old one succeeds on any key, however the store evolved in between. */
  lemma TakeoverFencesTheOldToken(states: seq<Store>, calls: seq<Call>, i: nat, j: nat)
    requires Run(states, calls) && FreshTokens(states, calls) && UniqueTokens(states[0])
    requires i < j < |calls|
    requires calls[i].op.Takeover? && Succeeds(states[i], calls[i])
    requires Presents(calls[j].op, Trim(calls[i].op.token))
    ensures !Succeeds(states[j], calls[j])
  {
    TakeoverReplaces(states[i], calls[i]);
    LeavingTokenNeverActs(states, calls, i, j, Trim(calls[i].op.token));
  }

  lemma TakeoverReplaces(s: Store, c: Call)
    requires c.op.Takeover? && Succeeds(s, c)
    ensures Acts(c) && Holds(s, c.key, Trim(c.op.token)) && !Holds(Apply(s, c).0, c.key, Trim(c.op.token))
  {
  }

  /** The same after a release: the released token is dead for good, even when the key is deleted and recreated at version 1. */
  lemma ReleaseRetiresTheToken(states: seq<Store>, calls: seq<Call>, i: nat, j: nat)
    requires Run(states, calls) && FreshTokens(states, calls) && UniqueTokens(states[0])
    requires i < j < |calls| && ReleasedBy(states[i], calls[i], calls[i].key) && Succeeds(states[i], calls[i])
    requires Presents(calls[j].op, Trim(calls[i].op.token))
    ensures !Succeeds(states[j], calls[j])
  {
    ReleaseRemoves(states[i], calls[i]);
    LeavingTokenNeverActs(states, calls, i, j, Trim(calls[i].op.token));
  }

  lemma ReleaseRemoves(s: Store, c: Call)
    requires ReleasedBy(s, c, c.key) && Succeeds(s, c)
    ensures Holds(s, c.key, Trim(c.op.token)) && !HasExecution(Apply(s, c).0, c.key)
  {
  }

  // ---- optimistic versions -----------------------------------------------------------

  /** The call ends the record's lifetime: it was there and is dropped as expired, or removed. */
  predicate EndsLifetime(s: Store, c: Call, key: WorkflowKey) {
    key in s && c.key == key && (key !in Purge(s, key, c.now) || key !in Apply(s, c).0)
  }

  lemma CallRaisesVersion(s: Store, c: Call, key: WorkflowKey)
    requires key in s && !EndsLifetime(s, c, key)
    ensures key in Apply(s, c).0 && Apply(s, c).0[key].version >= s[key].version
  {
    FailureChangesNothing(s, c);
    if c.key == key && Acts(c) {
      SuccessRaisesVersionByOne(s, key, c.op, c.now);
    }
  }

  lemma {:induction false} VersionsGrowWithinALifetime(states: seq<Store>, calls: seq<Call>, key: WorkflowKey, i: nat, j: nat)
    requires Run(states, calls) && i <= j < |states| && key in states[i]
    requires forall m | i <= m < j :: !EndsLifetime(states[m], calls[m], key)
    ensures key in states[j] && states[j][key].version >= states[i][key].version
    decreases j
  {
    if j > i {
      VersionsGrowWithinALifetime(states, calls, key, i, j - 1);
      VersionGrows(states, calls, key, j);
    }
  }

  lemma VersionGrows(states: seq<Store>, calls: seq<Call>, key: WorkflowKey, j: nat)
    requires Run(states, calls) && 0 < j < |states| && key in states[j - 1] && !EndsLifetime(states[j - 1], calls[j - 1], key)
    ensures key in states[j] && states[j][key].version >= states[j - 1][key].version
  {
    LastCall(states, calls, j);
    CallRaisesVersion(states[j - 1], calls[j - 1], key);
  }

  predicate Mutates(s: Store, c: Call, expected: nat) {
    Acts(c) && Succeeds(s, c) && !c.op.Load? && !Creates(c.op) && ExpectedVersion(c.op) == expected
  }

  lemma WinnerFindsItsVersion(s: Store, c: Call, expected: nat)
    requires Mutates(s, c, expected)
    ensures AtVersion(s, c.key, expected)
  {
    SuccessRaisesVersionByOne(s, c.key, c.op, c.now);
  }

  lemma WinnerMovesOn(s: Store, c: Call, expected: nat)
    requires Mutates(s, c, expected) && !EndsLifetime(s, c, c.key)
    ensures AtVersion(Apply(s, c).0, c.key, expected + 1)
  {
    SuccessRaisesVersionByOne(s, c.key, c.op, c.now);
  }

  lemma VersionIsPassed(states: seq<Store>, calls: seq<Call>, key: WorkflowKey, i: nat, j: nat, expected: nat)
    requires Run(states, calls) && i < j < |states| && AtVersion(states[i + 1], key, expected + 1)
    requires forall m | i < m < j :: !EndsLifetime(states[m], calls[m], key)
    ensures !AtVersion(states[j], key, expected)
  {
    VersionsGrowWithinALifetime(states, calls, key, i + 1, j);
  }

  /** Of all callers that read the same version of the same record, at most one ever mutates it, by an update or a delete: between two successful mutations expecting one version, the first included and the second not, the record's lifetime ends. */
  lemma OneWinnerPerVersion(states: seq<Store>, calls: seq<Call>, key: WorkflowKey, i: nat, j: nat, expected: nat)
    requires Run(states, calls) && i < j < |calls|
    requires calls[i].key == key && calls[j].key == key
    requires Mutates(states[i], calls[i], expected) && Mutates(states[j], calls[j], expected)
    ensures exists m :: i <= m < j && EndsLifetime(states[m], calls[m], key)
  {
    WinnerFindsItsVersion(states[j], calls[j], expected);
    if !EndsLifetime(states[i], calls[i], key) {
      WinnerMovesOn(states[i], calls[i], expected);
      assert states[i + 1] == Apply(states[i], calls[i]).0;
      if forall m | i < m < j :: !EndsLifetime(states[m], calls[m], key) { VersionIsPassed(states, calls, key, i, j, expected); }
    }
  }

  /** Versions alone fence nothing across lifetimes: a caller still holding version 1 of a deleted workflow overwrites the one created after it. */
  lemma VersionsRepeatAcrossLifetimes(
    key: WorkflowKey, first: WorkflowSnapshot, second: WorkflowSnapshot, stale: WorkflowSnapshot, now: Time)
    requires CompleteKey(key) && !Expired(Prepare(key, first, 1, None, now), now) && !Expired(Prepare(key, second, 1, None, now), now)
    ensures var c0 := Call(key, Create(Some(first)), now, false);
            var c1 := Call(key, DeleteIfVersion(1), now, false);
            var c2 := Call(key, Create(Some(second)), now, false);
            var c3 := Call(key, CompareAndSwap(1, Some(stale)), now, false);
            var s1 := Apply(map[], c0).0;
            var s2 := Apply(s1, c1).0;
            var s3 := Apply(s2, c2).0;
            Succeeds(map[], c0) && Succeeds(s1, c1) && Succeeds(s2, c2) && Succeeds(s3, c3)
  {
  }
}
