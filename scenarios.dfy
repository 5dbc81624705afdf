/** Clients of the context tree that replay the cases of src/context.spec.ts
    and the behaviours src/context.ts gives its timers. Each method builds a
    fresh tree, drives it through the tree's methods only, and states what the
    observations return; the proofs use nothing but the methods' contracts and
    the lemmas about `Settle`. */
module ContextScenarios {
  import opened Errors
  import opened Outcomes
  import opened Contexts

  /** The four ways the tests obtain a context from `RootContext`. */
  datatype Derivation = Itself | ByCancel | ByTimeout | ByDeadline

  /** Derives a context from the root of `tree` as the tests do: itself,
      `withCancel()`, `withTimeout(1000)`, or `withDeadline(now + 1000)`. */
  method Derive(tree: ContextTree, how: Derivation) returns (ctx: ContextId, cancel: Cancel)
    requires tree.Valid() && tree.parent == [None] && tree.timer == [None]
    modifies tree
    ensures tree.Valid() && tree.clock == old(tree.clock) && tree.Issued(cancel)
    ensures how.Itself? ==> ctx == Root && cancel == NoOp && tree.parent == [None]
    ensures !how.Itself? ==> ctx == 1 && tree.parent == [None, Some(Root)] && !cancel.NoOp? && cancel.node == 1
    ensures tree.state == if how.Itself? then [Pending] else [Pending, Pending]
    ensures how.Itself? ==> tree.timer == [None]
    ensures how.ByCancel? ==> tree.timer == [None, None]
    ensures how.ByTimeout? || how.ByDeadline? ==> tree.timer == [None, Some(tree.clock + 1000)]
  {
    match how
    case Itself =>
      ctx, cancel := Root, NoOp;
    case ByCancel =>
      ctx, cancel := tree.WithCancel(Root);
    case ByTimeout =>
      ctx, cancel := tree.WithTimeout(Root, 1000);
    case ByDeadline =>
      ctx, cancel := tree.WithDeadline(Root, tree.clock + 1000);
  }

  /** "Non-canceled": ten time units later the context is not done, racing an
      operation that succeeded yields its value, and canceling a child of it
      settles the child without bubbling up. */
  method NonCanceled(how: Derivation) returns (done: Outcome<(), Reason>, raced: Outcome<bool, RaceFailure<string>>,
                                                childDone: Outcome<(), Reason>, racedAfterChild: Outcome<bool, RaceFailure<string>>)
    ensures done == Unsettled
    ensures raced == Fulfilled(true)
    ensures childDone == Fulfilled(())
    ensures racedAfterChild == Fulfilled(true)
  {
    var tree := new ContextTree(0);
    var ctx, _ := Derive(tree, how);
    tree.Advance(10);
    done := DoneSignal(tree.state[ctx]);
    raced := Race(tree.state[ctx], Fulfilled(true));

    var child, childCancel := tree.WithCancel(ctx);
    ghost var parents, states := tree.parent, tree.state;
    tree.Invoke(childCancel);
    CancelStaysBelow(parents, states, child, Canceled, ctx);
    assert Under(parents, {child}, child);
    childDone := DoneSignal(tree.state[child]);
    racedAfterChild := Race(tree.state[ctx], Fulfilled(true));
  }

  /** "Canceled": once its cancel closure is called the context is done, a
      child derived afterwards is done (once its queued cascade has run), racing an unfinished operation
      rejects with `Canceled`, and `err()` yields `Canceled`. */
  method CanceledContext(how: Derivation) returns (done: Outcome<(), Reason>, childDone: Outcome<(), Reason>,
                                                   raced: Outcome<bool, RaceFailure<string>>, err: Outcome<Reason, Reason>)
    requires !how.Itself?
    ensures done == Fulfilled(())
    ensures childDone == Fulfilled(())
    ensures raced == Rejected(ContextEnded(Canceled))
    ensures err == Fulfilled(Canceled)
  {
    var tree := new ContextTree(0);
    var ctx, cancel := Derive(tree, how);
    tree.Invoke(cancel);
    assert Under(tree.parent, {1}, 1);
    done := DoneSignal(tree.state[ctx]);
    var child, _ := tree.WithCancel(ctx);
    childDone := DoneSignal(tree.state[child]);
    raced := Race(tree.state[ctx], Unsettled);
    err := Err(tree.state[ctx]);
  }

  /** "immediately rejects deadlines not in the future": `withDeadline(now)`
      is done with `DeadlineExceeded` before any time passes. */
  method DeadlineNow() returns (err: Outcome<Reason, Reason>)
    ensures err == Fulfilled(DeadlineExceeded)
  {
    var tree := new ContextTree(0);
    var ctx, _ := tree.WithDeadline(Root, tree.clock);
    err := Err(tree.state[ctx]);
  }

  /** "rejects after given time has passed": `withTimeout(100)` is done with
      `DeadlineExceeded` once 100 time units pass. */
  method TimeoutElapses() returns (before: Outcome<Reason, Reason>, after: Outcome<Reason, Reason>)
    ensures before == Unsettled
    ensures after == Fulfilled(DeadlineExceeded)
  {
    var tree := new ContextTree(0);
    var ctx, _ := tree.WithTimeout(Root, 100);
    tree.Advance(99);
    assert !Under(tree.parent, DueSet([None, Some(100)], 99), 1);
    before := Err(tree.state[ctx]);
    tree.Advance(1);
    assert Under(tree.parent, DueSet([None, Some(100)], 100), 1);
    after := Err(tree.state[ctx]);
  }

  /** A timer under a canceled child: the root, a `withCancel` child and its
      `withTimeout(1000)` grandchild. When the time passes only the grandchild
      is done, with `DeadlineExceeded`; its ancestors stay pending. */
  method GrandchildTimesOut() returns (root: State, a: State, b: State)
    ensures root == Pending && a == Pending && b == Done(DeadlineExceeded)
  {
    var tree := new ContextTree(0);
    var childA, _ := tree.WithCancel(Root);
    var childB, _ := tree.WithTimeout(childA, 1000);
    tree.Advance(1000);
    ghost var due := DueSet([None, None, Some(1000)], 1000);
    assert due == {2};
    assert Under(tree.parent, due, 2);
    root, a, b := tree.state[Root], tree.state[childA], tree.state[childB];
  }

  /** Calling the cancel of a `withTimeout` child first clears its timer: the
      child ends `Canceled` and no later time turns it into `DeadlineExceeded`. */
  method CancelBeatsTimer(later: nat) returns (err: Outcome<Reason, Reason>, armed: bool)
    ensures err == Fulfilled(Canceled)
    ensures !armed
  {
    var tree := new ContextTree(0);
    var ctx, cancel := tree.WithTimeout(Root, 100);
    tree.Invoke(cancel);
    assert Under(tree.parent, {1}, 1);
    tree.Advance(later);
    err := Err(tree.state[ctx]);
    armed := tree.timer[ctx].Some?;
  }

  /** A parent's cancel cascades to a `withTimeout` child without clearing the
      child's timer; the timer still fires later, to no effect. */
  method CascadeLeavesTimerArmed() returns (errAfterCancel: Outcome<Reason, Reason>, armedAfterCancel: bool,
                                            errAfterTimer: Outcome<Reason, Reason>, armedAfterTimer: bool)
    ensures errAfterCancel == Fulfilled(Canceled) && armedAfterCancel
    ensures errAfterTimer == Fulfilled(Canceled) && !armedAfterTimer
  {
    var tree := new ContextTree(0);
    var parent, cancelParent := tree.WithCancel(Root);
    var child, _ := tree.WithTimeout(parent, 50);
    tree.Invoke(cancelParent);
    assert Under(tree.parent, {1}, 2);
    errAfterCancel := Err(tree.state[child]);
    armedAfterCancel := tree.timer[child].Some?;
    tree.Advance(50);
    errAfterTimer := Err(tree.state[child]);
    armedAfterTimer := tree.timer[child].Some?;
  }

  /** `withTimeout(0)` is still pending when it returns; only its timer, at
      the next advance of the clock, settles it with `DeadlineExceeded`. */
  method ZeroTimeout() returns (atOnce: State, afterTimer: State)
    ensures atOnce == Pending
    ensures afterTimer == Done(DeadlineExceeded)
  {
    var tree := new ContextTree(0);
    var ctx, _ := tree.WithTimeout(Root, 0);
    atOnce := tree.state[ctx];
    tree.Advance(0);
    assert Under(tree.parent, DueSet([None, Some(0)], 0), 1);
    afterTimer := tree.state[ctx];
  }

  /** A context born expired listens to nobody: derived from a canceled
      parent with a deadline in the past, it reports `DeadlineExceeded`, while
      with a deadline in the future it takes the parent's `Canceled`. */
  method ExpiredDeadlineIgnoresParent() returns (past: State, future: State)
    ensures past == Done(DeadlineExceeded)
    ensures future == Done(Canceled)
  {
    var tree := new ContextTree(0);
    var parent, cancelParent := tree.WithCancel(Root);
    tree.Invoke(cancelParent);
    assert Under(tree.parent, {1}, 1);
    var pastChild, _ := tree.WithDeadline(parent, tree.clock);
    var futureChild, _ := tree.WithDeadline(parent, tree.clock + 1);
    past, future := tree.state[pastChild], tree.state[futureChild];
  }

  /** `withTimeout(t)` for any `t`: after `e` time units the context is done
      with `DeadlineExceeded` exactly when `t <= e`, and pending otherwise. */
  method TimeoutAfter(t: int, e: nat) returns (s: State)
    ensures s == if t <= e then Done(DeadlineExceeded) else Pending
  {
    var tree := new ContextTree(0);
    var ctx, _ := tree.WithTimeout(Root, t);
    ghost var timers := tree.timer;
    tree.Advance(e);
    if t <= e {
      TimerFires(tree.parent, [Pending, Pending], timers, e, ctx);
    } else {
      OnlyDueTimersFire(timers, e, ctx);
      OnlyDueTimersFire(timers, e, Root);
    }
    s := tree.state[ctx];
  }

  /** `withDeadline(d)` for any `d`, called at time 0: after `e` time units
      the context is done with `DeadlineExceeded` exactly when `d <= e`, from
      the start when `d <= 0` and by its timer otherwise. */
  method DeadlineAfter(d: int, e: nat) returns (atOnce: State, s: State)
    ensures atOnce == if d <= 0 then Done(DeadlineExceeded) else Pending
    ensures s == if d <= e then Done(DeadlineExceeded) else Pending
  {
    var tree := new ContextTree(0);
    var ctx, _ := tree.WithDeadline(Root, d);
    atOnce := tree.state[ctx];
    ghost var timers, states := tree.timer, tree.state;
    tree.Advance(e);
    if d <= 0 {
      FirstTriggerWins(tree.parent, states, DueSet(timers, e), DeadlineExceeded, ctx);
    } else if d <= e {
      TimerFires(tree.parent, states, timers, e, ctx);
    } else {
      OnlyDueTimersFire(timers, e, ctx);
      OnlyDueTimersFire(timers, e, Root);
    }
    s := tree.state[ctx];
  }
}
