/** The cancellation-context tree of src/context.ts.

    Every context is a one-shot state machine: `Pending`, or `Done` with the
    reason its promise was rejected with. A derived context listens to the
    rejection of the context it was derived from (its parent), so a parent's
    reason cascades down to every still-pending descendant; a cancel closure or
    a timer settles one context and, through it, its descendants; whichever
    trigger reaches a context first decides its reason for good.

    The promise machinery is modelled as synchronous updates of a tree whose
    contexts are numbered in creation order, the root being 0, and the timers
    as due times on an integer clock that `Advance` moves forward. */
module Contexts {
  import opened Errors
  import opened Outcomes

  /** A context, by its position in creation order. */
  type ContextId = nat

  const Root: ContextId := 0

  /** The settled state of one context's promise. */
  datatype State = Pending | Done(reason: Reason)

  /** What a failed `race` was rejected with: the context's reason, or the
      error the raced operation failed with on its own. */
  datatype RaceFailure<+E> = ContextEnded(reason: Reason) | OperationFailed(error: E)

  // ---------------------------------------------------------------------------
  // Observation: Context.done, Context.err, Context.race

  /** `done()`: fulfilled with no value exactly when the context is done; it
      never rejects. */
  function DoneSignal(s: State): (p: Outcome<(), Reason>)
    ensures p.Fulfilled? <==> s.Done?
    ensures p.Unsettled? <==> s.Pending?
  {
    if s.Done? then Fulfilled(()) else Unsettled
  }

  /** `err()`: fulfilled with the stored reason once the context is done,
      unsettled while it is pending; it never rejects. */
  function Err(s: State): (p: Outcome<Reason, Reason>)
    ensures !p.Rejected?
    ensures p.Fulfilled? <==> DoneSignal(s).Fulfilled?
    ensures p.Fulfilled? ==> s == Done(p.value)
  {
    match s
    case Pending => Unsettled
    case Done(r) => Fulfilled(r)
  }

  /** `race(op)`: the context's promise comes first in the race, so a done
      context rejects with its reason whatever `op` has done; on a pending
      context the outcome of `op` passes through. */
  function Race<T, E>(s: State, op: Outcome<T, E>): (p: Outcome<T, RaceFailure<E>>)
    ensures s.Done? ==> p == Rejected(ContextEnded(s.reason))
    ensures s.Pending? ==> (p.Unsettled? <==> op.Unsettled?)
    ensures s.Pending? && op.Fulfilled? ==> p == Fulfilled(op.value)
    ensures s.Pending? && op.Rejected? ==> p == Rejected(OperationFailed(op.error))
    ensures (p.Rejected? && p.error.ContextEnded?) <==> s.Done?
  {
    if s.Done? then Rejected(ContextEnded(s.reason))
    else match op
      case Unsettled => Unsettled
      case Fulfilled(v) => Fulfilled(v)
      case Rejected(e) => Rejected(OperationFailed(e))
  }

  // ---------------------------------------------------------------------------
  // Deadlines: Context.withDeadline

  /** The timeout `withDeadline(deadline)` turns into at time `now`, or `None`
      when the deadline is not in the future and the child is born expired. */
  function TimeoutFor(deadline: int, now: int): (t: Option<int>)
    ensures t.Some? <==> now < deadline
    ensures t.Some? ==> t.value > 0 && now + t.value == deadline
  {
    var diff := deadline - now;
    if diff <= 0 then None else Some(diff)
  }

  // ---------------------------------------------------------------------------
  // The cascade, as a function of the whole tree

  /** Every parent link points to an earlier context, so the links form a forest. */
  predicate Linked(parent: seq<Option<ContextId>>) {
    forall j :: 0 <= j < |parent| && parent[j].Some? ==> parent[j].value < j
  }

  /** No pending context listens to a done one: a parent's rejection has
      reached every child. */
  predicate Cascaded(parent: seq<Option<ContextId>>, state: seq<State>)
    requires Linked(parent) && |state| == |parent|
  {
    forall j :: 0 <= j < |state| && parent[j].Some? && state[parent[j].value].Done? ==> state[j].Done?
  }

  /** Context `j` is one of `roots`, or listens through a chain of parent links
      to one of them. */
  predicate Under(parent: seq<Option<ContextId>>, roots: set<ContextId>, j: ContextId)
    requires Linked(parent) && j < |parent|
    decreases j
  {
    j in roots || (parent[j].Some? && Under(parent, roots, parent[j].value))
  }

  /** The states after every context in `roots` is rejected with `r` and the
      rejection has cascaded: each pending context under `roots` becomes done
      with `r`, every other context keeps its state. */
  function Settle(parent: seq<Option<ContextId>>, state: seq<State>, roots: set<ContextId>, r: Reason): (after: seq<State>)
    requires Linked(parent) && |state| == |parent|
    ensures |after| == |state|
  {
    seq(|state|, j requires 0 <= j < |state| =>
      if state[j].Pending? && Under(parent, roots, j) then Done(r) else state[j])
  }

  /** A descendant of `i` comes after `i` in creation order. */
  lemma {:induction false} UnderAbove(parent: seq<Option<ContextId>>, i: ContextId, j: ContextId)
    requires Linked(parent) && j < |parent| && Under(parent, {i}, j)
    ensures i <= j
  {
    if j != i {
      UnderAbove(parent, i, parent[j].value);
    }
  }

  /** A context settles at most once: a done context keeps its reason whatever
      later trigger reaches it. */
  lemma FirstTriggerWins(parent: seq<Option<ContextId>>, state: seq<State>, roots: set<ContextId>, r: Reason, j: ContextId)
    requires Linked(parent) && |state| == |parent| && j < |state|
    requires state[j].Done?
    ensures Settle(parent, state, roots, r)[j] == state[j]
  {
  }

  /** Settling keeps the tree cascaded, settles everything under `roots`, and
      touches nothing else. */
  lemma SettleCascades(parent: seq<Option<ContextId>>, state: seq<State>, roots: set<ContextId>, r: Reason)
    requires Linked(parent) && |state| == |parent| && Cascaded(parent, state)
    ensures Cascaded(parent, Settle(parent, state, roots, r))
    ensures forall j :: 0 <= j < |state| && Under(parent, roots, j) ==> Settle(parent, state, roots, r)[j].Done?
    ensures forall j :: 0 <= j < |state| && !Under(parent, roots, j) ==> Settle(parent, state, roots, r)[j] == state[j]
  {
  }

  /** A context settled by the cascade carries its parent's reason. */
  lemma ChildTakesParentReason(parent: seq<Option<ContextId>>, state: seq<State>, roots: set<ContextId>, r: Reason, j: ContextId)
    requires Linked(parent) && |state| == |parent| && Cascaded(parent, state)
    requires j < |state| && j !in roots && parent[j].Some?
    requires state[j].Pending? && Settle(parent, state, roots, r)[j].Done?
    ensures Settle(parent, state, roots, r)[j] == Settle(parent, state, roots, r)[parent[j].value]
  {
  }

  /** Canceling one context leaves its parent, its siblings and everything
      created before it as they were. */
  lemma CancelStaysBelow(parent: seq<Option<ContextId>>, state: seq<State>, i: ContextId, r: Reason, k: ContextId)
    requires Linked(parent) && |state| == |parent| && i < |state| && k < |state|
    requires k < i || (k != i && parent[k].Some? && parent[i] == parent[k])
    ensures Settle(parent, state, {i}, r)[k] == state[k]
  {
    if Under(parent, {i}, k) {
      if k < i {
        UnderAbove(parent, i, k);
      } else {
        UnderAbove(parent, i, parent[k].value);
      }
    }
  }

  /** A second trigger on the same contexts changes nothing. */
  lemma SettleIdempotent(parent: seq<Option<ContextId>>, state: seq<State>, roots: set<ContextId>, r: Reason, r': Reason)
    requires Linked(parent) && |state| == |parent|
    ensures Settle(parent, Settle(parent, state, roots, r), roots, r') == Settle(parent, state, roots, r)
  {
  }

  // ---------------------------------------------------------------------------
  // Timers

  /** The contexts whose timer is due at time `now`. */
  function DueSet(timer: seq<Option<int>>, now: int): set<ContextId> {
    set j | 0 <= j < |timer| && timer[j].Some? && timer[j].value <= now
  }

  /** The timers left once every due timer has fired. */
  function Disarm(timer: seq<Option<int>>, now: int): seq<Option<int>> {
    seq(|timer|, j requires 0 <= j < |timer| =>
      if timer[j].Some? && timer[j].value <= now then None else timer[j])
  }

  /** A timer that falls due rejects its context with `DeadlineExceeded`
      unless something settled that context first. */
  lemma TimerFires(parent: seq<Option<ContextId>>, state: seq<State>, timer: seq<Option<int>>, now: int, j: ContextId)
    requires Linked(parent) && |state| == |parent| == |timer| && j < |state|
    requires timer[j].Some? && timer[j].value <= now
    ensures state[j].Pending? ==> Settle(parent, state, DueSet(timer, now), DeadlineExceeded)[j] == Done(DeadlineExceeded)
    ensures state[j].Done? ==> Settle(parent, state, DueSet(timer, now), DeadlineExceeded)[j] == state[j]
  {
  }

  /** A cleared timer never fires, and a timer that has not fallen due does
      not fire yet. */
  lemma OnlyDueTimersFire(timer: seq<Option<int>>, now: int, j: ContextId)
    requires j < |timer|
    requires timer[j].None? || timer[j].value > now
    ensures j !in DueSet(timer, now)
  {
  }

  /** A timer fires once: after the timers due at `now` have fired, the timers
      due at any later time are those that were due then and had not fired. */
  lemma FiresOnce(timer: seq<Option<int>>, now: int, later: int)
    requires now <= later
    ensures |Disarm(timer, now)| == |timer|
    ensures DueSet(Disarm(timer, now), later) == DueSet(timer, later) - DueSet(timer, now)
  {
  }


  // ---------------------------------------------------------------------------
  // The cancel closures the derivations return

  datatype Cancel =
    | CancelContext(node: ContextId)        // from withCancel: reject with Canceled
    | ClearTimerAndCancel(node: ContextId)  // from withTimeout: clear the timer, then reject with Canceled
    | NoOp                                  // from withDeadline with a deadline not in the future

  // ---------------------------------------------------------------------------
  // The tree

  class ContextTree {
    /** `Date.now()`, and the time the timers are measured against. */
    var clock: int
    /** The context whose rejection each context listens to; `None` for the
        root and for a context born expired, which listens to nobody. */
    var parent: seq<Option<ContextId>>
    var state: seq<State>
    /** The due time of each context's armed timer, if any. */
    var timer: seq<Option<int>>
    /** The cancel closure handed out with each context; `NoOp` for the root,
        which has none. */
    ghost var closer: seq<Cancel>

    ghost predicate Valid()
      reads this
    {
      && |parent| == |state| == |timer| == |closer| > 0
      && Linked(parent)
      && parent[Root].None? && state[Root].Pending? && timer[Root].None?
      && Cascaded(parent, state)
    }

    /** A cancel closure this tree handed out, with the context it was
        handed out for. */
    ghost predicate Issued(c: Cancel)
      reads this
    {
      !c.NoOp? ==> Root < c.node < |closer| && closer[c.node] == c
    }

    /** The process starts with only `RootContext`, which nothing can settle. */
    constructor (now: int)
      ensures Valid() && clock == now
      ensures parent == [None] && state == [Pending] && timer == [None] && closer == [NoOp]
    {
      clock := now;
      parent, state, timer := [None], [Pending], [None];
      closer := [NoOp];
    }

    /** `ctx.withCancel()`: a child that listens to `ctx`, and a closure that
        rejects it with `Canceled`. Under a done parent the source returns a
        pending child whose cascade is only queued; the model applies that
        cascade at once, so the child starts done with the parent's reason. */
    method WithCancel(ctx: ContextId) returns (child: ContextId, cancel: Cancel)
      requires Valid() && ctx < |state|
      modifies this
      ensures Valid() && clock == old(clock)
      ensures child == old(|state|) && cancel == CancelContext(child) && Issued(cancel)
      ensures parent == old(parent) + [Some(ctx)]
      ensures state == old(state) + [old(state[ctx])]
      ensures timer == old(timer) + [None]
      ensures closer == old(closer) + [cancel]
    {
      child := |state|;
      parent, state, timer := parent + [Some(ctx)], state + [state[ctx]], timer + [None];
      cancel := CancelContext(child);
      closer := closer + [cancel];
    }

    /** `ctx.withTimeout(timeout)`: like `withCancel`, and arms a timer due
        `timeout` after now, even when the parent is already done; its closure
        clears the timer before rejecting with `Canceled`. */
    method WithTimeout(ctx: ContextId, timeout: int) returns (child: ContextId, cancel: Cancel)
      requires Valid() && ctx < |state|
      modifies this
      ensures Valid() && clock == old(clock)
      ensures child == old(|state|) && cancel == ClearTimerAndCancel(child) && Issued(cancel)
      ensures parent == old(parent) + [Some(ctx)]
      ensures state == old(state) + [old(state[ctx])]
      ensures timer == old(timer) + [Some(clock + timeout)]
      ensures closer == old(closer) + [cancel]
    {
      child := |state|;
      parent, state, timer := parent + [Some(ctx)], state + [state[ctx]], timer + [Some(clock + timeout)];
      cancel := ClearTimerAndCancel(child);
      closer := closer + [cancel];
    }

    /** `ctx.withDeadline(deadline)`: `withTimeout(deadline - now)` when the
        deadline is in the future; otherwise a context that is already done with
        `DeadlineExceeded`, listens to nobody, and comes with a closure that
        does nothing. */
    method WithDeadline(ctx: ContextId, deadline: int) returns (child: ContextId, cancel: Cancel)
      requires Valid() && ctx < |state|
      modifies this
      ensures Valid() && clock == old(clock)
      ensures child == old(|state|) && Issued(cancel)
      ensures closer == old(closer) + [cancel]
      ensures deadline <= clock ==>
        && parent == old(parent) + [None]
        && state == old(state) + [Done(DeadlineExceeded)]
        && timer == old(timer) + [None]
        && cancel == NoOp
      ensures clock < deadline ==>
        && parent == old(parent) + [Some(ctx)]
        && state == old(state) + [old(state[ctx])]
        && timer == old(timer) + [Some(deadline)]
        && cancel == ClearTimerAndCancel(child)
    {
      match TimeoutFor(deadline, clock)
      case None =>
        child := |state|;
        parent, state, timer := parent + [None], state + [Done(DeadlineExceeded)], timer + [None];
        cancel := NoOp;
        closer := closer + [cancel];
      case Some(t) =>
        child, cancel := WithTimeout(ctx, t);
    }

    /** Calls a cancel closure. It rejects its context with `Canceled` (a
        no-op if that context is already done) and the rejection cascades;
        the closure from `withTimeout` also clears that context's timer. */
    method Invoke(cancel: Cancel)
      requires Valid() && Issued(cancel)
      modifies this
      ensures Valid() && clock == old(clock) && parent == old(parent) && closer == old(closer)
      ensures cancel.NoOp? ==> state == old(state) && timer == old(timer)
      ensures !cancel.NoOp? ==> state == Settle(parent, old(state), {cancel.node}, Canceled)
      ensures cancel.CancelContext? ==> timer == old(timer)
      ensures cancel.ClearTimerAndCancel? ==> timer == old(timer)[cancel.node := None]
    {
      match cancel
      case NoOp =>
      case CancelContext(i) =>
        Reject({i}, Canceled);
      case ClearTimerAndCancel(i) =>
        timer := timer[i := None];
        Reject({i}, Canceled);
    }

    /** Lets `elapsed` time units pass: every timer that falls due fires once
        and rejects its context with `DeadlineExceeded`, which cascades; a timer
        whose context is already done fires to no effect. */
    method Advance(elapsed: nat)
      requires Valid()
      modifies this
      ensures Valid() && clock == old(clock) + elapsed && parent == old(parent) && closer == old(closer)
      ensures state == Settle(parent, old(state), DueSet(old(timer), clock), DeadlineExceeded)
      ensures timer == Disarm(old(timer), clock)
    {
      clock := clock + elapsed;
      var due := DueSet(timer, clock);
      Reject(due, DeadlineExceeded);
      timer := Disarm(timer, clock);
    }

    /** Rejects every context in `roots` with `r` and lets the rejection
        cascade, one context at a time in creation order: a parent is always
        visited before its children. */
    method Reject(roots: set<ContextId>, r: Reason)
      requires Valid() && Root !in roots
      modifies this`state
      ensures Valid()
      ensures state == Settle(parent, old(state), roots, r)
    {
      ghost var before := state;
      ghost var target := Settle(parent, before, roots, r);
      var j := 0;
      while j < |state|
        invariant 0 <= j <= |state| == |before|
        invariant forall k :: 0 <= k < j ==> state[k] == target[k]
        invariant forall k :: j <= k < |state| ==> state[k] == before[k]
      {
        if state[j].Pending? && (j in roots || (parent[j].Some? && state[parent[j].value].Done?)) {
          state := state[j := Done(r)];
        }
        j := j + 1;
      }
      SettleCascades(parent, before, roots, r);
    }
  }
}
