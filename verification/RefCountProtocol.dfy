/** RefCountedBase of api/ref_counted_base.h used from several threads, with the atomic
    counter of rtc_base/ref_counter.h.

    A state is one object, the references each thread owns and how far each thread has got
    with a Release.  AddRef is one atomic increment.  Release is two steps: the atomic
    decrement that yields a status, and, for the thread told kDroppedLastRef, the deletion.
    Threads keep the discipline of the API: they touch the object only through a reference
    they own, which may be handed from one thread to another. */
module RefCountProtocol {
  import opened Basics

  type Thread = nat

  datatype State = State(
    count: int,                      // the atomic counter
    adopted: bool,                   // the creator has taken the first reference
    owned: seq<nat>,                 // references owned, by thread
    deleting: seq<bool>,             // between the last decrement and the deletion, by thread
    statuses: seq<ReleaseStatus>,    // what the Release calls returned, in order
    deletions: nat)

  datatype Step =
    | Adopt(t: Thread)               // scoped_refptr<T>(new T)
    | AddRef(t: Thread)
    | Decrement(t: Thread)           // first step of Release
    | Delete(t: Thread)              // second step of Release
    | HandOver(t: Thread, to: Thread)

  /** A new object and n threads, none of which holds a reference. */
  function Initial(n: nat): State {
    State(0, false, seq(n, _ => 0), seq(n, _ => false), [], 0)
  }

  function Sum(xs: seq<nat>): nat {
    if xs == [] then 0 else Sum(xs[..|xs| - 1]) + xs[|xs| - 1]
  }

  function Pending(xs: seq<bool>): nat {
    if xs == [] then 0 else Pending(xs[..|xs| - 1]) + (if xs[|xs| - 1] then 1 else 0)
  }

  function Dropped(xs: seq<ReleaseStatus>): nat {
    if xs == [] then 0 else Dropped(xs[..|xs| - 1]) + (if xs[|xs| - 1] == DroppedLastRef then 1 else 0)
  }

  predicate Idle(s: State, t: Thread) {
    t < |s.owned| == |s.deleting| && !s.deleting[t]
  }

  predicate MayUse(s: State, t: Thread) {
    Idle(s, t) && s.owned[t] > 0
  }

  /** The step's effect, or None if the discipline does not allow it. */
  function Next(s: State, step: Step): Option<State> {
    match step
    case Adopt(t) =>
      if Idle(s, t) && !s.adopted
      then Some(s.(count := s.count + 1, adopted := true, owned := s.owned[t := s.owned[t] + 1]))
      else None
    case AddRef(t) =>
      if MayUse(s, t)
      then Some(s.(count := s.count + 1, owned := s.owned[t := s.owned[t] + 1]))
      else None
    case Decrement(t) =>
      if MayUse(s, t) then
        var status := if s.count - 1 == 0 then DroppedLastRef else OtherRefsRemained;
        Some(s.(count := s.count - 1,
                owned := s.owned[t := s.owned[t] - 1],
                deleting := s.deleting[t := status == DroppedLastRef],
                statuses := s.statuses + [status]))
      else None
    case Delete(t) =>
      if t < |s.deleting| && s.deleting[t]
      then Some(s.(deleting := s.deleting[t := false], deletions := s.deletions + 1))
      else None
    case HandOver(t, to) =>
      if MayUse(s, t) && Idle(s, to) && t != to
      then Some(s.(owned := s.owned[t := s.owned[t] - 1][to := s.owned[to] + 1]))
      else None
  }

  /** Every interleaving is a sequence of steps. */
  function Run(s: State, steps: seq<Step>): Option<State> {
    if steps == [] then Some(s)
    else
      var before := Run(s, steps[..|steps| - 1]);
      if before.None? then None else Next(before.value, steps[|steps| - 1])
  }

  ghost predicate Reachable(n: nat, steps: seq<Step>, s: State) {
    Run(Initial(n), steps) == Some(s)
  }

  // ---------------------------------------------------------------------
  // Sums
  // ---------------------------------------------------------------------

  lemma {:induction false} SumUpdate(xs: seq<nat>, t: nat, v: nat)
    requires t < |xs|
    ensures Sum(xs[t := v]) == Sum(xs) - xs[t] + v
    decreases |xs|
  {
    var n := |xs| - 1;
    if t == n {
      assert xs[t := v][..n] == xs[..n];
    } else {
      SumUpdate(xs[..n], t, v);
      assert xs[t := v][..n] == xs[..n][t := v];
    }
  }

  lemma {:induction false} SumBounds(xs: seq<nat>, t: nat)
    requires t < |xs|
    ensures xs[t] <= Sum(xs)
    decreases |xs|
  {
    if t < |xs| - 1 {
      SumBounds(xs[..|xs| - 1], t);
    }
  }

  lemma SumBoundsTwo(xs: seq<nat>, t: nat, u: nat)
    requires t < |xs| && u < |xs| && t != u
    ensures xs[t] + xs[u] <= Sum(xs)
  {
    SumUpdate(xs, t, 0);
    SumBounds(xs[t := 0], u);
  }

  lemma {:induction false} PendingUpdate(xs: seq<bool>, t: nat, b: bool)
    requires t < |xs|
    ensures Pending(xs[t := b]) == Pending(xs) - (if xs[t] then 1 else 0) + (if b then 1 else 0)
    decreases |xs|
  {
    var n := |xs| - 1;
    if t == n {
      assert xs[t := b][..n] == xs[..n];
    } else {
      PendingUpdate(xs[..n], t, b);
      assert xs[t := b][..n] == xs[..n][t := b];
    }
  }

  lemma {:induction false} PendingBounds(xs: seq<bool>, t: nat)
    requires t < |xs| && xs[t]
    ensures Pending(xs) >= 1
    decreases |xs|
  {
    if t < |xs| - 1 {
      PendingBounds(xs[..|xs| - 1], t);
    }
  }

  lemma {:induction false} InitialSums(n: nat)
    ensures Sum(seq(n, _ => 0)) == 0 && Pending(seq(n, _ => false)) == 0
  {
    if n > 0 {
      InitialSums(n - 1);
      assert seq(n, _ => 0)[..n - 1] == seq(n - 1, _ => 0);
      assert seq(n, _ => false)[..n - 1] == seq(n - 1, _ => false);
    }
  }

  lemma DroppedAppend(xs: seq<ReleaseStatus>, x: ReleaseStatus)
    ensures Dropped(xs + [x]) == Dropped(xs) + if x == DroppedLastRef then 1 else 0
  {
    assert (xs + [x])[..|xs|] == xs;
  }

  // ---------------------------------------------------------------------
  // The invariant
  // ---------------------------------------------------------------------

  ghost predicate Inv(s: State) {
    && |s.owned| == |s.deleting|
    && s.count == Sum(s.owned)
    && (s.count > 0 ==> s.adopted)
    && Dropped(s.statuses) == (if s.adopted && s.count == 0 then 1 else 0)
    && s.deletions + Pending(s.deleting) == Dropped(s.statuses)
  }

  lemma InvInitial(n: nat)
    ensures Inv(Initial(n))
  {
    InitialSums(n);
  }

  lemma InvTake(s: State, t: Thread, s': State)
    requires Inv(s) && t < |s.owned| && (s.owned[t] > 0 || !s.adopted)
    requires s' == s.(count := s.count + 1, adopted := true, owned := s.owned[t := s.owned[t] + 1])
    ensures Inv(s')
  {
    SumBounds(s.owned, t);
    SumUpdate(s.owned, t, s.owned[t] + 1);
  }

  lemma InvDecrement(s: State, t: Thread)
    requires Inv(s) && MayUse(s, t)
    ensures Inv(Next(s, Decrement(t)).value)
  {
    hide Sum, Pending, Dropped;
    var status := if s.count - 1 == 0 then DroppedLastRef else OtherRefsRemained;
    SumBounds(s.owned, t);
    SumUpdate(s.owned, t, s.owned[t] - 1);
    PendingUpdate(s.deleting, t, status == DroppedLastRef);
    DroppedAppend(s.statuses, status);
  }

  lemma InvHandOver(s: State, t: Thread, to: Thread)
    requires Inv(s) && MayUse(s, t) && Idle(s, to) && t != to
    ensures Inv(Next(s, HandOver(t, to)).value)
  {
    hide Sum, Pending, Dropped;
    SumUpdate(s.owned, t, s.owned[t] - 1);
    SumUpdate(s.owned[t := s.owned[t] - 1], to, s.owned[to] + 1);
  }

  lemma InvStep(s: State, step: Step)
    requires Inv(s) && Next(s, step).Some?
    ensures Inv(Next(s, step).value)
  {
    hide Sum, Pending, Dropped;
    match step
    case Adopt(t) => {
      InvTake(s, t, Next(s, step).value);
    }
    case AddRef(t) => {
      SumBounds(s.owned, t);
      InvTake(s, t, Next(s, step).value);
    }
    case Decrement(t) => {
      InvDecrement(s, t);
    }
    case Delete(t) => {
      PendingUpdate(s.deleting, t, false);
    }
    case HandOver(t, to) => {
      InvHandOver(s, t, to);
    }
  }

  lemma {:induction false} InvRun(n: nat, steps: seq<Step>)
    requires Run(Initial(n), steps).Some?
    ensures Inv(Run(Initial(n), steps).value)
    decreases |steps|
  {
    if steps == [] {
      InvInitial(n);
    } else {
      InvRun(n, steps[..|steps| - 1]);
      InvStep(Run(Initial(n), steps[..|steps| - 1]).value, steps[|steps| - 1]);
    }
  }

  // ---------------------------------------------------------------------
  // What every interleaving guarantees
  // ---------------------------------------------------------------------

  ghost predicate NobodyOwns(s: State) {
    forall t :: 0 <= t < |s.owned| ==> s.owned[t] == 0
  }

  lemma {:induction false} ZeroSum(xs: seq<nat>)
    ensures Sum(xs) == 0 <==> forall t :: 0 <= t < |xs| ==> xs[t] == 0
  {
    if xs != [] {
      ZeroSum(xs[..|xs| - 1]);
    }
  }

  /** The count is the number of references owned; once an object has been adopted, exactly
      one Release has returned kDroppedLastRef if nobody owns a reference and none has
      otherwise. */
  lemma LastReferenceDroppedOnce(n: nat, steps: seq<Step>, s: State)
    requires Reachable(n, steps, s)
    ensures s.count == Sum(s.owned)
    ensures Dropped(s.statuses) <= 1
    ensures Dropped(s.statuses) == 1 <==> s.adopted && NobodyOwns(s)
  {
    InvRun(n, steps);
    ZeroSum(s.owned);
  }

  /** The object is deleted at most once; when a thread is about to delete it, or it has been
      deleted, no thread owns a reference; and it is not leaked: when nobody owns a
      reference and no Release is unfinished it has been deleted. */
  lemma DeletedOnceAndUnowned(n: nat, steps: seq<Step>, s: State)
    requires Reachable(n, steps, s)
    ensures s.deletions <= 1
    ensures s.deletions == 1 || (exists t :: 0 <= t < |s.deleting| && s.deleting[t]) ==> NobodyOwns(s)
    ensures s.adopted && NobodyOwns(s) && (forall t :: 0 <= t < |s.deleting| ==> !s.deleting[t]) ==>
              s.deletions == 1
  {
    InvRun(n, steps);
    ZeroSum(s.owned);
    if t :| 0 <= t < |s.deleting| && s.deleting[t] {
      PendingBounds(s.deleting, t);
    }
    if forall t :: 0 <= t < |s.deleting| ==> !s.deleting[t] {
      NonePending(s.deleting);
    }
  }

  lemma {:induction false} NonePending(xs: seq<bool>)
    requires forall t :: 0 <= t < |xs| ==> !xs[t]
    ensures Pending(xs) == 0
  {
    if xs != [] {
      NonePending(xs[..|xs| - 1]);
    }
  }

  /** No step at all can follow the deletion: no use after free, no double
      delete and no resurrection. */
  lemma NoUseAfterDelete(n: nat, steps: seq<Step>, s: State, step: Step)
    requires Reachable(n, steps, s) && s.deletions > 0
    ensures Next(s, step).None?
  {
    InvRun(n, steps);
    ZeroSum(s.owned);
    if step.Delete? && step.t < |s.deleting| && s.deleting[step.t] {
      PendingBounds(s.deleting, step.t);
    }
  }

  /** HasOneRef, asked by a thread that owns a reference, means that no other thread owns one. */
  lemma HasOneRefIsExclusive(n: nat, steps: seq<Step>, s: State, t: Thread, u: Thread)
    requires Reachable(n, steps, s)
    requires t < |s.owned| && u < |s.owned| && t != u && s.owned[t] > 0
    ensures s.count == 1 ==> s.owned[t] == 1 && s.owned[u] == 0
  {
    InvRun(n, steps);
    SumBoundsTwo(s.owned, t, u);
  }

  // ---------------------------------------------------------------------
  // What can happen
  // ---------------------------------------------------------------------

  lemma {:induction false} SomePending(xs: seq<bool>) returns (t: nat)
    requires Pending(xs) > 0
    ensures t < |xs| && xs[t]
  {
    if xs[|xs| - 1] {
      t := |xs| - 1;
    } else {
      t := SomePending(xs[..|xs| - 1]);
    }
  }

  lemma {:induction false} SomeOwner(xs: seq<nat>) returns (t: nat)
    requires Sum(xs) > 0
    ensures t < |xs| && xs[t] > 0
  {
    if xs[|xs| - 1] > 0 {
      t := |xs| - 1;
    } else {
      t := SomeOwner(xs[..|xs| - 1]);
    }
  }

  lemma OwnersAreIdle(s: State, t: Thread)
    requires Inv(s) && t < |s.owned| && s.owned[t] > 0
    ensures MayUse(s, t) && s.count > 0
  {
    SumBounds(s.owned, t);
    if s.deleting[t] {
      PendingBounds(s.deleting, t);
    }
  }

  /** A thread that owns a reference can always take another one and can always give one up,
      and is told kDroppedLastRef exactly if nobody owns a reference then. */
  lemma OwnerMayAct(n: nat, steps: seq<Step>, s: State, t: Thread)
    requires Reachable(n, steps, s) && t < |s.owned| && s.owned[t] > 0
    ensures var added := Next(s, AddRef(t));
            added.Some? && added.value.owned == s.owned[t := s.owned[t] + 1] && added.value.statuses == s.statuses
    ensures var released := Next(s, Decrement(t));
            && released.Some? && released.value.owned == s.owned[t := s.owned[t] - 1]
            && released.value.statuses ==
               s.statuses + [if NobodyOwns(released.value) then DroppedLastRef else OtherRefsRemained]
  {
    InvRun(n, steps);
    OwnersAreIdle(s, t);
    InvDecrement(s, t);
    ZeroSum(Next(s, Decrement(t)).value.owned);
  }

  lemma {:induction false} RunAppends(s: State, step: Step, rest: seq<Step>)
    requires Next(s, step).Some?
    ensures Run(s, [step] + rest) == Run(Next(s, step).value, rest)
    decreases |rest|
  {
    hide Next;
    if rest == [] {
      assert [step] + rest == [step] && [step][..0] == [];
      assert Run(s, []) == Some(s);
    } else {
      RunAppends(s, step, rest[..|rest| - 1]);
      assert ([step] + rest)[..|rest|] == [step] + rest[..|rest| - 1];
    }
  }

  /** From every state in which the object is in use it can be deleted: if the owners give
      their references up, the last one deletes it. */
  lemma {:induction false} CanBeDeleted(s: State) returns (rest: seq<Step>)
    requires Inv(s) && s.adopted
    ensures Run(s, rest).Some? && Run(s, rest).value.deletions == 1 && NobodyOwns(Run(s, rest).value)
    decreases Sum(s.owned), Pending(s.deleting)
  {
    if s.count > 0 {
      var t := SomeOwner(s.owned);
      OwnersAreIdle(s, t);
      InvDecrement(s, t);
      var next := Next(s, Decrement(t)).value;
      SumUpdate(s.owned, t, s.owned[t] - 1);
      var more := CanBeDeleted(next);
      RunAppends(s, Decrement(t), more);
      rest := [Decrement(t)] + more;
    } else if Pending(s.deleting) > 0 {
      var t := SomePending(s.deleting);
      InvStep(s, Delete(t));
      PendingUpdate(s.deleting, t, false);
      var more := CanBeDeleted(Next(s, Delete(t)).value);
      RunAppends(s, Delete(t), more);
      rest := [Delete(t)] + more;
    } else {
      ZeroSum(s.owned);
      rest := [];
    }
  }
}
