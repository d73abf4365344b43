/** The console's pending wallet operations: prepared once, taken at most once. */
module OwnerOperations {
  import opened Wrappers

  datatype Pending = Pending(owner: string, kind: string, expiresAt: int)

  type Table = map<string, Pending>

  datatype Call =
    | Put(id: string, operation: Pending)
    | Take(id: string, kind: string, owner: string, now: int)

  /** Whether the call returns normally. */
  predicate Succeeds(t: Table, call: Call) {
    match call
    case Put(id, _) => id !in t
    case Take(id, kind, owner, now) =>
      id in t && t[id].owner == owner && t[id].kind == kind && t[id].expiresAt >= now
  }

  /** A take removes the operation even when it throws. */
  function After(t: Table, call: Call): Table {
    match call
    case Put(id, operation) => if id in t then t else t[id := operation]
    case Take(id, _, _, _) => t - {id}
  }

  class PendingOwnerOperations {
    var operations: Table

    constructor ()
      ensures operations == map[]
    {
      operations := map[];
    }

    method Put(id: string, operation: Pending) returns (ok: bool)
      modifies this
      ensures ok == Succeeds(old(operations), Call.Put(id, operation))
      ensures operations == After(old(operations), Call.Put(id, operation))
    {
      if id in operations {
        return false;
      }
      operations := operations[id := operation];
      ok := true;
    }

    method Take(id: string, kind: string, owner: string, now: int) returns (taken: Option<Pending>)
      modifies this
      ensures taken.Some? == Succeeds(old(operations), Call.Take(id, kind, owner, now))
      ensures taken.Some? ==> taken.value == old(operations)[id]
      ensures operations == After(old(operations), Call.Take(id, kind, owner, now))
    {
      var pending := if id in operations then Some(operations[id]) else None;
      operations := operations - {id};
      if pending.None? || pending.value.owner != owner || pending.value.kind != kind || pending.value.expiresAt < now {
        return None;
      }
      taken := pending;
    }
  }

  // ---- Runs ----

  function Run(calls: seq<Call>): Table {
    if calls == [] then map[] else After(Run(calls[..|calls| - 1]), calls[|calls| - 1])
  }

  predicate SucceedsAt(calls: seq<Call>, i: nat)
    requires i < |calls|
  {
    Succeeds(Run(calls[..i]), calls[i])
  }

  /** Put j stored the operation and no take of its identifier, successful or not, came since. */
  ghost predicate PreparedAt(calls: seq<Call>, j: nat, id: string, operation: Pending)
    requires j < |calls|
  {
    && calls[j] == Put(id, operation) && SucceedsAt(calls, j)
    && forall k :: j < k < |calls| ==> !(calls[k].Take? && calls[k].id == id)
  }

  lemma {:induction false} StoredWasPrepared(calls: seq<Call>, id: string)
    requires id in Run(calls)
    ensures exists j :: 0 <= j < |calls| && PreparedAt(calls, j, id, Run(calls)[id])
    decreases |calls|
  {
    var front, n := calls[..|calls| - 1], |calls| - 1;
    if id in Run(front) {
      StoredWasPrepared(front, id);
      var j :| 0 <= j < |front| && PreparedAt(front, j, id, Run(front)[id]);
      assert front[..j] == calls[..j];
      assert PreparedAt(calls, j, id, Run(calls)[id]);
    } else {
      assert PreparedAt(calls, n, id, Run(calls)[id]);
    }
  }

  lemma {:induction false} PreparedIsStored(calls: seq<Call>, j: nat, id: string, operation: Pending)
    requires j < |calls| && PreparedAt(calls, j, id, operation)
    ensures id in Run(calls) && Run(calls)[id] == operation
    decreases |calls|
  {
    var front, n := calls[..|calls| - 1], |calls| - 1;
    if j < n {
      assert front[..j] == calls[..j];
      assert PreparedAt(front, j, id, operation);
      PreparedIsStored(front, j, id, operation);
    } else {
      assert calls[..n] == front;
    }
  }

  /** The table holds exactly what was put under a free identifier and not taken since. */
  lemma StoredIffPrepared(calls: seq<Call>, id: string, operation: Pending)
    ensures id in Run(calls) && Run(calls)[id] == operation
      <==> exists j :: 0 <= j < |calls| && PreparedAt(calls, j, id, operation)
  {
    if id in Run(calls) {
      StoredWasPrepared(calls, id);
    }
    if j :| 0 <= j < |calls| && PreparedAt(calls, j, id, operation) {
      PreparedIsStored(calls, j, id, operation);
    }
  }

  /** A take succeeds exactly when the owner's operation of that kind was prepared, not taken since, and is in time. */
  lemma TakenIffPrepared(calls: seq<Call>, i: nat)
    requires i < |calls| && calls[i].Take?
    ensures SucceedsAt(calls, i) <==> exists j: nat, operation ::
      && j < i && PreparedAt(calls[..i], j, calls[i].id, operation)
      && operation.owner == calls[i].owner && operation.kind == calls[i].kind && operation.expiresAt >= calls[i].now
  {
    var front, id := calls[..i], calls[i].id;
    if SucceedsAt(calls, i) {
      StoredWasPrepared(front, id);
    }
    if j: nat, operation :|
         && j < i && PreparedAt(front, j, id, operation)
         && operation.owner == calls[i].owner && operation.kind == calls[i].kind
         && operation.expiresAt >= calls[i].now {
      PreparedIsStored(front, j, id, operation);
    }
  }

  /** A put succeeds exactly while nothing under its identifier waits to be taken. */
  lemma PutIffFree(calls: seq<Call>, i: nat)
    requires i < |calls| && calls[i].Put?
    ensures SucceedsAt(calls, i) <==>
      forall j: nat, operation :: j < i ==> !PreparedAt(calls[..i], j, calls[i].id, operation)
  {
    var front, id := calls[..i], calls[i].id;
    if id in Run(front) {
      StoredWasPrepared(front, id);
    }
    if j: nat, operation :| j < i && PreparedAt(front, j, id, operation) {
      PreparedIsStored(front, j, id, operation);
    }
  }

  /** Between two successful takes of one identifier it was put again: each prepared operation is taken at most once. */
  lemma TakenAtMostOnce(calls: seq<Call>, i: nat, k: nat)
    requires i < k < |calls| && calls[i].Take? && calls[k].Take? && calls[i].id == calls[k].id
    requires SucceedsAt(calls, i) && SucceedsAt(calls, k)
    ensures exists j :: i < j < k && calls[j].Put? && calls[j].id == calls[i].id && SucceedsAt(calls, j)
  {
    TakenIffPrepared(calls, k);
    var j: nat, operation :| j < k && PreparedAt(calls[..k], j, calls[k].id, operation);
    assert calls[..k][j] == calls[j] && calls[..k][..j] == calls[..j];
    assert j > i by {
      assert calls[..k][i] == calls[i];
    }
  }
}

/** The console's source queue: operations submitted at any time run one after another, whatever their outcomes. */
module SourceQueue {
  datatype Status = Waiting | Running | Finished(ok: bool)

  /** A submission chains on the one before it; an operation starts once its predecessor has finished either way. */
  datatype Step = Submit | Start(k: nat) | Finish(k: nat, ok: bool)

  predicate Enabled(q: seq<Status>, step: Step) {
    match step
    case Submit => true
    case Start(k) => k < |q| && q[k].Waiting? && (k == 0 || q[k - 1].Finished?)
    case Finish(k, _) => k < |q| && q[k].Running?
  }

  function Next(q: seq<Status>, step: Step): seq<Status>
    requires Enabled(q, step)
  {
    match step
    case Submit => q + [Waiting]
    case Start(k) => q[k := Running]
    case Finish(k, ok) => q[k := Finished(ok)]
  }

  ghost predicate IsRunFrom(q: seq<Status>, steps: seq<Step>, states: seq<seq<Status>>) {
    && |states| == |steps| + 1 && states[0] == q
    && forall i :: 0 <= i < |steps| ==> Enabled(states[i], steps[i]) && states[i + 1] == Next(states[i], steps[i])
  }

  ghost predicate IsRun(steps: seq<Step>, states: seq<seq<Status>>) {
    IsRunFrom([], steps, states)
  }

  /** The empty queue is a run, and every enabled step extends one. */
  lemma RunsExtend(steps: seq<Step>, states: seq<seq<Status>>, step: Step)
    ensures IsRun([], [[]])
    ensures IsRun(steps, states) && Enabled(states[|steps|], step) ==>
      IsRun(steps + [step], states + [Next(states[|steps|], step)])
  {
  }

  /** Whatever has started, everything submitted before it has finished. */
  predicate InOrder(q: seq<Status>) {
    forall i, j :: 0 <= i < j < |q| && !q[j].Waiting? ==> q[i].Finished?
  }

  lemma StepKeepsOrder(q: seq<Status>, step: Step)
    requires InOrder(q) && Enabled(q, step)
    ensures InOrder(Next(q, step))
  {
  }

  /** While an operation waits, the first unfinished one can move on, whether those before it failed or not. */
  lemma WaitingMeansProgress(q: seq<Status>, k: nat)
    requires InOrder(q) && k < |q| && q[k].Waiting?
    ensures exists i :: 0 <= i <= k && (Enabled(q, Start(i)) || Enabled(q, Finish(i, true)))
    decreases k
  {
    if k == 0 || q[k - 1].Finished? {
      assert Enabled(q, Start(k));
    } else if q[k - 1].Running? {
      assert Enabled(q, Finish(k - 1, true));
    } else {
      WaitingMeansProgress(q, k - 1);
    }
  }

  /** After a failure the next waiting operation can start, exactly as after a success. */
  lemma FailureStartsTheNext(q: seq<Status>, k: nat, ok: bool)
    requires InOrder(q) && Enabled(q, Finish(k, ok)) && k + 1 < |q|
    ensures Enabled(Next(q, Finish(k, ok)), Start(k + 1))
  {
  }

  /** The operations not yet finished, a waiting one counting twice. */
  function Remaining(q: seq<Status>): nat {
    if q == [] then 0
    else Remaining(q[1..]) + match q[0] case Waiting => 2 case Running => 1 case Finished(_) => 0
  }

  lemma {:induction false} StepsAreFewer(q: seq<Status>, k: nat, after: Status)
    requires k < |q| && ((q[k].Waiting? && after.Running?) || (q[k].Running? && after.Finished?))
    ensures Remaining(q[k := after]) == Remaining(q) - 1
    decreases |q|
  {
    if k == 0 {
      assert q[0 := after][1..] == q[1..];
    } else {
      assert q[k := after][1..] == q[1..][k - 1 := after];
      StepsAreFewer(q[1..], k - 1, after);
    }
  }

  lemma StepFirst(q: seq<Status>, step: Step, rest: seq<Step>, later: seq<seq<Status>>)
    requires Enabled(q, step) && IsRunFrom(Next(q, step), rest, later)
    ensures IsRunFrom(q, [step] + rest, [q] + later)
    ensures ([q] + later)[|rest| + 1] == later[|rest|]
  {
    var steps, states := [step] + rest, [q] + later;
    forall j | 0 <= j < |steps| ensures Enabled(states[j], steps[j]) && states[j + 1] == Next(states[j], steps[j]) {
      if j > 0 {
        assert states[j] == later[j - 1] && steps[j] == rest[j - 1] && states[j + 1] == later[j];
      }
    }
  }

  /** No failure blocks the queue: whatever outcomes the operations have, from every state all of them can finish. */
  lemma {:induction false} EverythingCanFinish(q: seq<Status>, outcome: nat -> bool)
    returns (steps: seq<Step>, states: seq<seq<Status>>)
    requires InOrder(q)
    ensures IsRunFrom(q, steps, states) && |states[|steps|]| == |q|
    ensures forall k :: 0 <= k < |q| ==>
      states[|steps|][k] == if q[k].Finished? then q[k] else Finished(outcome(k))
    decreases Remaining(q)
  {
    if forall k :: 0 <= k < |q| ==> q[k].Finished? {
      steps, states := [], [q];
    } else {
      var k :| 0 <= k < |q| && !q[k].Finished?;
      var i := FirstUnfinished(q, k);
      var step := if q[i].Waiting? then Start(i) else Finish(i, outcome(i));
      var after := Next(q, step);
      StepsAreFewer(q, i, after[i]);
      StepKeepsOrder(q, step);
      var rest, later := EverythingCanFinish(after, outcome);
      StepFirst(q, step, rest, later);
      steps, states := [step] + rest, [q] + later;
    }
  }

  lemma FirstUnfinished(q: seq<Status>, k: nat) returns (i: nat)
    requires k < |q| && !q[k].Finished?
    ensures i <= k && !q[i].Finished? && (i == 0 || q[i - 1].Finished?)
  {
    i := k;
    while i > 0 && !q[i - 1].Finished?
      invariant i <= k && !q[i].Finished?
    {
      i := i - 1;
    }
  }

  /** In every run operations start in submission order, and one at a time. */
  lemma {:induction false} OneAtATimeInOrder(steps: seq<Step>, states: seq<seq<Status>>)
    requires IsRun(steps, states)
    ensures InOrder(states[|steps|])
    ensures forall i, j | 0 <= i < |states[|steps|]| && 0 <= j < |states[|steps|]|
              && states[|steps|][i].Running? && states[|steps|][j].Running? :: i == j
    decreases |steps|
  {
    if steps != [] {
      OneAtATimeInOrder(steps[..|steps| - 1], states[..|steps|]);
      StepKeepsOrder(states[|steps| - 1], steps[|steps| - 1]);
    }
  }
}
