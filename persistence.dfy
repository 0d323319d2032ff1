/** The retry-on-merge-conflict save loop of `NSManagedObjectContext.applyChangesAndSave`.
    CoreData itself is not modelled: what `changes()` and `save()` do in the i-th attempt is an
    input (`attempt(i)`), and the context only records which of its operations were called. */
module Persistence {
  import opened Wrappers

  /** Both overloads allow four attempts of changes-and-save. */
  const MaxRetries: nat := 4

  /** CoreData's error codes for an optimistic-locking and a uniqueness-constraint merge conflict. */
  const NSManagedObjectMergeError: int := 133020
  const NSManagedObjectConstraintMergeError: int := 133021

  /** An error thrown by `changes` or `save`; `id` tells two errors with the same code apart. */
  datatype StoreError = StoreError(code: int, id: nat)

  predicate IsMergeError(e: StoreError) {
    e.code == NSManagedObjectMergeError || e.code == NSManagedObjectConstraintMergeError
  }

  /** What one attempt meets: `changes` throws (so `save` is not called), `save` throws, or both succeed. */
  datatype Attempt = ChangesThrow(error: StoreError) | SaveThrows(error: StoreError) | Saved {
    predicate Failed() { !Saved? }
    predicate IsMergeConflict() { Failed() && IsMergeError(error) }
  }

  /** `PersistenceError.saveLoopError(Error?)`. */
  datatype PersistenceError = SaveLoopError(lastMergeError: Option<StoreError>)

  /** The error handed to `onError`, or thrown: either the one `changes`/`save` threw, or the loop's own. */
  datatype SaveFailure = Thrown(error: StoreError) | Persistence(loopError: PersistenceError)

  datatype Callback = OnError(failure: SaveFailure) | OnDidSave

  /** The context operations the loop calls: the `changes` block, `save()` and `reset()`. */
  datatype ContextOp = RunChanges | Save | Reset

  /** One run of the loop: the attempts it made, the context operations it called, and how it ended. */
  datatype SaveRun = SaveRun(made: seq<Attempt>, ops: seq<ContextOp>, outcome: Outcome<SaveFailure>)

  /** The operations of an attempt's `do` block: `changes`, then `save` unless `changes` threw. */
  function DoBlockOps(a: Attempt): seq<ContextOp> {
    if a.ChangesThrow? then [RunChanges] else [RunChanges, Save]
  }

  /** The context operations of one attempt: its `do` block, then `reset` only on a merge conflict. */
  function AttemptOps(a: Attempt): seq<ContextOp> {
    DoBlockOps(a) + (if a.IsMergeConflict() then [Reset] else [])
  }

  function Flatten(made: seq<Attempt>): seq<ContextOp> {
    if made == [] then [] else AttemptOps(made[0]) + Flatten(made[1..])
  }

  /** Reference semantics of the loop from `iteration` on, with `lastError` the last merge conflict so far. */
  function Run(attempt: nat -> Attempt, iteration: nat, lastError: Option<StoreError>): SaveRun
    decreases MaxRetries - iteration
  {
    if iteration >= MaxRetries then
      SaveRun([], [], Fail(Persistence(SaveLoopError(lastError))))
    else
      var a := attempt(iteration);
      if a.Saved? then SaveRun([a], AttemptOps(a), Pass)
      else if !IsMergeError(a.error) then SaveRun([a], AttemptOps(a), Fail(Thrown(a.error)))
      else
        var rest := Run(attempt, iteration + 1, Some(a.error));
        SaveRun([a] + rest.made, AttemptOps(a) + rest.ops, rest.outcome)
  }

  /** The run of a call: it starts at iteration 0 with no merge conflict seen. */
  function SaveLoop(attempt: nat -> Attempt): SaveRun {
    Run(attempt, 0, None)
  }

  /** The callback the callback overload makes for an outcome. */
  function CallbackFor(o: Outcome<SaveFailure>): Callback {
    match o
    case Pass => OnDidSave
    case Fail(f) => OnError(f)
  }

  function Count(ops: seq<ContextOp>, op: ContextOp): nat {
    if ops == [] then 0 else (if ops[0] == op then 1 else 0) + Count(ops[1..], op)
  }

  lemma {:induction false} CountAppend(s: seq<ContextOp>, t: seq<ContextOp>, op: ContextOp)
    ensures Count(s + t, op) == Count(s, op) + Count(t, op)
  {
    if s == [] {
      assert s + t == t;
    } else {
      assert (s + t)[0] == s[0];
      assert (s + t)[1..] == s[1..] + t;
      CountAppend(s[1..], t, op);
    }
  }

  lemma {:induction false} FlattenAppend(s: seq<Attempt>, t: seq<Attempt>)
    ensures Flatten(s + t) == Flatten(s) + Flatten(t)
  {
    if s == [] {
      assert s + t == t;
    } else {
      assert (s + t)[0] == s[0];
      assert (s + t)[1..] == s[1..] + t;
      FlattenAppend(s[1..], t);
    }
  }

  /** One iteration of the loop, unfolded. */
  lemma RunStep(attempt: nat -> Attempt, iteration: nat, lastError: Option<StoreError>)
    requires iteration < MaxRetries
    ensures var a := attempt(iteration);
      && (a.Saved? ==> Run(attempt, iteration, lastError) == SaveRun([a], [RunChanges, Save], Pass))
      && (a.Failed() && !IsMergeError(a.error) ==>
            Run(attempt, iteration, lastError) == SaveRun([a], AttemptOps(a), Fail(Thrown(a.error))))
      && (a.IsMergeConflict() ==>
            var rest := Run(attempt, iteration + 1, Some(a.error));
            Run(attempt, iteration, lastError) == SaveRun([a] + rest.made, AttemptOps(a) + rest.ops, rest.outcome))
  {
  }

  /** One attempt's operations, as a flattened list of one. */
  lemma FlattenOne(a: Attempt)
    ensures Flatten([a]) == AttemptOps(a)
  {
    assert [a][1..] == [];
  }

  /** The first k attempts the environment offers. */
  function Prefix(attempt: nat -> Attempt, k: nat): seq<Attempt> {
    if k == 0 then [] else Prefix(attempt, k - 1) + [attempt(k - 1)]
  }

  lemma {:induction false} PrefixIndex(attempt: nat -> Attempt, k: nat)
    ensures |Prefix(attempt, k)| == k
    ensures forall j :: 0 <= j < k ==> Prefix(attempt, k)[j] == attempt(j)
  {
    if k > 0 {
      PrefixIndex(attempt, k - 1);
    }
  }

  /** The operations of k + 1 attempts are those of the first k followed by those of attempt k, which are its
      `do` block and, on a merge conflict, `reset`. */
  lemma FlattenPrefixStep(attempt: nat -> Attempt, k: nat, base: seq<ContextOp>)
    ensures base + Flatten(Prefix(attempt, k + 1)) == base + Flatten(Prefix(attempt, k)) + AttemptOps(attempt(k))
    ensures base + Flatten(Prefix(attempt, k)) + AttemptOps(attempt(k)) ==
      base + Flatten(Prefix(attempt, k)) + DoBlockOps(attempt(k)) + (if attempt(k).IsMergeConflict() then [Reset] else [])
  {
    FlattenAppend(Prefix(attempt, k), [attempt(k)]);
    FlattenOne(attempt(k));
  }

  /** The attempts made are the next attempts in order, there are at most as many as iterations are left and at
      least one when any is left, and every attempt but the last was a merge conflict. The operations called are
      exactly those of the attempts made. */
  lemma {:induction false} RunShape(attempt: nat -> Attempt, iteration: nat, lastError: Option<StoreError>)
    ensures var r := Run(attempt, iteration, lastError);
      && |r.made| <= (if iteration < MaxRetries then MaxRetries - iteration else 0)
      && (iteration < MaxRetries ==> |r.made| >= 1)
      && (forall j :: 0 <= j < |r.made| ==> r.made[j] == attempt(iteration + j))
      && (forall j :: 0 <= j < |r.made| - 1 ==> r.made[j].IsMergeConflict())
      && r.ops == Flatten(r.made)
    decreases MaxRetries - iteration
  {
    if iteration < MaxRetries {
      RunStep(attempt, iteration, lastError);
      var a := attempt(iteration);
      var r := Run(attempt, iteration, lastError);
      if a.IsMergeConflict() {
        var rest := Run(attempt, iteration + 1, Some(a.error));
        RunShape(attempt, iteration + 1, Some(a.error));
        assert r.made == [a] + rest.made;
        forall j | 0 <= j < |r.made|
          ensures r.made[j] == attempt(iteration + j)
        {
          if j > 0 { assert r.made[j] == rest.made[j - 1]; }
        }
        forall j | 0 <= j < |r.made| - 1
          ensures r.made[j].IsMergeConflict()
        {
          if j > 0 { assert r.made[j] == rest.made[j - 1]; }
        }
        FlattenAppend([a], rest.made);
        FlattenOne(a);
      } else {
        FlattenOne(a);
      }
    }
  }

  lemma CountOne(x: ContextOp, op: ContextOp)
    ensures Count([x], op) == if x == op then 1 else 0
  {
    assert [x][1..] == [];
  }

  /** How often each context operation occurs in one attempt. */
  lemma AttemptCounts(a: Attempt)
    ensures Count(AttemptOps(a), RunChanges) == 1
    ensures Count(AttemptOps(a), Save) == if a.ChangesThrow? then 0 else 1
    ensures Count(AttemptOps(a), Reset) == if a.IsMergeConflict() then 1 else 0
  {
    LiteralCounts(RunChanges);
    LiteralCounts(Save);
    LiteralCounts(Reset);
  }

  lemma LiteralCounts(op: ContextOp)
    ensures Count([RunChanges], op) == if op == RunChanges then 1 else 0
    ensures Count([RunChanges, Save], op) == if op == Reset then 0 else 1
    ensures Count([RunChanges, Reset], op) == if op == Save then 0 else 1
    ensures Count([RunChanges, Save, Reset], op) == 1
  {
    CountOne(RunChanges, op);
    CountOne(Save, op);
    CountOne(Reset, op);
    assert [RunChanges] + [Save] == [RunChanges, Save];
    assert [RunChanges] + [Reset] == [RunChanges, Reset];
    assert [RunChanges, Save] + [Reset] == [RunChanges, Save, Reset];
    CountAppend([RunChanges], [Save], op);
    CountAppend([RunChanges], [Reset], op);
    CountAppend([RunChanges, Save], [Reset], op);
  }

  /** The loop makes at most four attempts: `changes` runs at most four times. */
  lemma AtMostFourAttempts(attempt: nat -> Attempt)
    ensures 1 <= |SaveLoop(attempt).made| <= MaxRetries
    ensures Count(SaveLoop(attempt).ops, RunChanges) == |SaveLoop(attempt).made|
  {
    RunShape(attempt, 0, None);
    ChangesOncePerAttempt(SaveLoop(attempt).made);
  }

  lemma {:induction false} ChangesOncePerAttempt(made: seq<Attempt>)
    ensures Count(Flatten(made), RunChanges) == |made|
  {
    if made != [] {
      ChangesOncePerAttempt(made[1..]);
      CountAppend(AttemptOps(made[0]), Flatten(made[1..]), RunChanges);
      AttemptCounts(made[0]);
    }
  }

  /** `reset` is called exactly once per merge conflict met: once per attempt made except the last, and once
      more when the last was a merge conflict too. */
  lemma {:induction false} ResetPerMergeConflict(made: seq<Attempt>)
    requires forall j :: 0 <= j < |made| - 1 ==> made[j].IsMergeConflict()
    ensures Count(Flatten(made), Reset) == |made| - (if made != [] && !made[|made| - 1].IsMergeConflict() then 1 else 0)
  {
    if made != [] {
      ResetPerMergeConflict(made[1..]);
      CountAppend(AttemptOps(made[0]), Flatten(made[1..]), Reset);
      AttemptCounts(made[0]);
      if |made| > 1 { assert made[1..][|made[1..]| - 1] == made[|made| - 1]; }
    }
  }

  /** The outcome is decided by the last attempt made: success when it saved, its own error (unchanged) when it
      failed other than by a merge conflict, and `saveLoopError` carrying it when it was a merge conflict, which
      happens only once no iteration is left. */
  lemma {:induction false} OutcomeOfLastAttempt(attempt: nat -> Attempt, iteration: nat, lastError: Option<StoreError>)
    requires iteration < MaxRetries
    ensures var r := Run(attempt, iteration, lastError);
      |r.made| >= 1 &&
      var last := r.made[|r.made| - 1];
      && (r.outcome == Pass <==> last.Saved?)
      && (last.Failed() && !IsMergeError(last.error) ==> r.outcome == Fail(Thrown(last.error)))
      && (last.IsMergeConflict() ==> r.outcome == Fail(Persistence(SaveLoopError(Some(last.error)))))
      && (last.IsMergeConflict() ==> iteration + |r.made| == MaxRetries)
    decreases MaxRetries - iteration
  {
    var a := attempt(iteration);
    if a.IsMergeConflict() && iteration + 1 < MaxRetries {
      OutcomeOfLastAttempt(attempt, iteration + 1, Some(a.error));
      var rest := Run(attempt, iteration + 1, Some(a.error));
      assert ([a] + rest.made)[|[a] + rest.made| - 1] == rest.made[|rest.made| - 1];
    }
  }

  /** Only a merge conflict makes the loop retry: if attempt k (k < 4) is the first that is not a merge conflict,
      the loop makes exactly k + 1 attempts, and it ends in success or with that attempt's error unchanged. */
  lemma FirstNonConflictDecides(attempt: nat -> Attempt, k: nat)
    requires k < MaxRetries
    requires forall j :: 0 <= j < k ==> attempt(j).IsMergeConflict()
    requires !attempt(k).IsMergeConflict()
    ensures |SaveLoop(attempt).made| == k + 1
    ensures SaveLoop(attempt).ops == Flatten(Prefix(attempt, k + 1))
    ensures SaveLoop(attempt).outcome == if attempt(k).Saved? then Pass else Fail(Thrown(attempt(k).error))
  {
    FirstNonConflictEnds(attempt, k);
    var r := SaveLoop(attempt);
    PrefixIndex(attempt, k + 1);
    assert r.made == Prefix(attempt, k + 1);
  }

  /** The length and the end of `FirstNonConflictDecides`: the attempts made stop at attempt k. */
  lemma FirstNonConflictEnds(attempt: nat -> Attempt, k: nat)
    requires k < MaxRetries
    requires forall j :: 0 <= j < k ==> attempt(j).IsMergeConflict()
    requires !attempt(k).IsMergeConflict()
    ensures |SaveLoop(attempt).made| == k + 1
    ensures forall j :: 0 <= j < k + 1 ==> SaveLoop(attempt).made[j] == attempt(j)
    ensures SaveLoop(attempt).ops == Flatten(SaveLoop(attempt).made)
    ensures SaveLoop(attempt).outcome == if attempt(k).Saved? then Pass else Fail(Thrown(attempt(k).error))
  {
    RunShape(attempt, 0, None);
    OutcomeOfLastAttempt(attempt, 0, None);
    var r := SaveLoop(attempt);
    var n := |r.made|;
    assert r.made[n - 1] == attempt(n - 1);
    if k < n {
      assert r.made[k] == attempt(k);
    }
  }

  /** Four merge conflicts in a row end the loop with `saveLoopError` carrying the fourth one. */
  lemma FourConflictsGiveSaveLoopError(attempt: nat -> Attempt)
    requires forall j :: 0 <= j < MaxRetries ==> attempt(j).IsMergeConflict()
    ensures |SaveLoop(attempt).made| == MaxRetries
    ensures SaveLoop(attempt).ops == Flatten(Prefix(attempt, MaxRetries))
    ensures attempt(MaxRetries - 1).IsMergeConflict() &&
      SaveLoop(attempt).outcome == Fail(Persistence(SaveLoopError(Some(attempt(MaxRetries - 1).error))))
  {
    RunShape(attempt, 0, None);
    OutcomeOfLastAttempt(attempt, 0, None);
    var r := SaveLoop(attempt);
    assert r.made[|r.made| - 1] == attempt(|r.made| - 1);
    PrefixIndex(attempt, MaxRetries);
    assert r.made == Prefix(attempt, MaxRetries);
  }

  /** A context that records the operations the loop calls on it. `hasChanges` is true after `changes` ran and
      until a successful `save` or a `reset`. */
  class ManagedObjectContext {
    var hasChanges: bool
    var operations: seq<ContextOp>

    constructor ()
      ensures !hasChanges && operations == []
    {
      hasChanges := false;
      operations := [];
    }

    /** The `do` block of one attempt: `changes` runs, then `save` unless `changes` threw. Either leaves the
        changes in the context when it throws. */
    method ChangesAndSave(a: Attempt) returns (thrown: Option<StoreError>)
      modifies this
      ensures operations == old(operations) + DoBlockOps(a)
      ensures hasChanges <==> a.Failed()
      ensures thrown == if a.Failed() then Some(a.error) else None
    {
      operations := operations + [RunChanges];
      hasChanges := true;
      if a.ChangesThrow? {
        return Some(a.error);
      }
      operations := operations + [Save];
      if a.SaveThrows? {
        return Some(a.error);
      }
      hasChanges := false;
      return None;
    }

    /** `reset()`: the context forgets its changes. */
    method Reset()
      modifies this
      ensures operations == old(operations) + [ContextOp.Reset]
      ensures !hasChanges
    {
      operations := operations + [ContextOp.Reset];
      hasChanges := false;
    }

    /** The callback overload: exactly one of `onError` / `onDidSave` is called, once. After an error other than
        a merge conflict the context is not reset, so it keeps its changes. */
    method ApplyChangesAndSave(attempt: nat -> Attempt) returns (callbacks: seq<Callback>)
      requires !hasChanges
      modifies this
      ensures operations == old(operations) + SaveLoop(attempt).ops
      ensures callbacks == [CallbackFor(SaveLoop(attempt).outcome)]
      ensures hasChanges <==> SaveLoop(attempt).outcome.Fail? && SaveLoop(attempt).outcome.error.Thrown?
    {
      var iteration: nat := 0;
      var lastError: Option<StoreError> := None;
      while iteration < MaxRetries
        invariant iteration <= MaxRetries
        invariant !hasChanges
        invariant forall j :: 0 <= j < iteration ==> attempt(j).IsMergeConflict()
        invariant lastError == if iteration == 0 then None else Some(attempt(iteration - 1).error)
        invariant operations == old(operations) + Flatten(Prefix(attempt, iteration))
        decreases MaxRetries - iteration
      {
        var a := attempt(iteration);
        FlattenPrefixStep(attempt, iteration, old(operations));
        var thrown := ChangesAndSave(a);
        if thrown.None? {
          FirstNonConflictDecides(attempt, iteration);
          callbacks := [OnDidSave];
          return;
        }
        var error := thrown.value;
        if IsMergeError(error) {
          assert a.IsMergeConflict();
          forall j | 0 <= j < iteration + 1
            ensures attempt(j).IsMergeConflict()
          {
          }
          iteration := iteration + 1;
          lastError := Some(error);
          Reset();
        } else {
          FirstNonConflictDecides(attempt, iteration);
          callbacks := [OnError(Thrown(error))];
          return;
        }
      }
      FourConflictsGiveSaveLoopError(attempt);
      callbacks := [OnError(Persistence(SaveLoopError(lastError)))];
    }

    /** The throwing overload: returns normally after a save, or throws exactly what the callback overload hands
        to `onError`. */
    method ApplyChangesAndSaveThrowing(attempt: nat -> Attempt) returns (r: Outcome<SaveFailure>)
      requires !hasChanges
      modifies this
      ensures operations == old(operations) + SaveLoop(attempt).ops
      ensures r == SaveLoop(attempt).outcome
      ensures hasChanges <==> r.Fail? && r.error.Thrown?
    {
      var iteration: nat := 0;
      var lastMergeError: Option<StoreError> := None;
      while iteration < MaxRetries
        invariant iteration <= MaxRetries
        invariant !hasChanges
        invariant forall j :: 0 <= j < iteration ==> attempt(j).IsMergeConflict()
        invariant lastMergeError == if iteration == 0 then None else Some(attempt(iteration - 1).error)
        invariant operations == old(operations) + Flatten(Prefix(attempt, iteration))
        decreases MaxRetries - iteration
      {
        var a := attempt(iteration);
        FlattenPrefixStep(attempt, iteration, old(operations));
        var thrown := ChangesAndSave(a);
        if thrown.None? {
          FirstNonConflictDecides(attempt, iteration);
          return Pass;
        }
        var error := thrown.value;
        if IsMergeError(error) {
          assert a.IsMergeConflict();
          forall j | 0 <= j < iteration + 1
            ensures attempt(j).IsMergeConflict()
          {
          }
          lastMergeError := Some(error);
          iteration := iteration + 1;
          Reset();
        } else {
          FirstNonConflictDecides(attempt, iteration);
          return Fail(Thrown(error));
        }
      }
      FourConflictsGiveSaveLoopError(attempt);
      r := Fail(Persistence(SaveLoopError(lastMergeError)));
    }
  }
}
