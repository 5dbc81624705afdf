# Cancellation contexts, modelled in Dafny

This project models the cancellation-context tree of the `context` TypeScript
library (`src/context.ts`) and the reason taxonomy it uses (`src/error.ts`).

A context is a one-shot state machine: it is `Pending`, or `Done` with a
reason. It holds that state in a promise that can be rejected only once. A
context derived with `withCancel`, `withTimeout` or `withDeadline` listens to
its parent's rejection, so a parent's reason cascades to every pending
descendant. Each derivation also returns a cancel closure. `withTimeout` arms
a timer that rejects the child with `DeadlineExceeded`. `withDeadline` turns
an absolute time into a timeout, and a deadline that is not in the future
gives a child that is already done. `RootContext` is never settled. Whichever
trigger reaches a context first decides its reason for good.

Files:

- `errors.dfy`, module `Errors`: `ContextError` with its two subclasses
  `DeadlineExceeded` and `Canceled`. Also their `name`, their `message` and
  their string form. `Reason` is the subset a context can end with.
- `outcomes.dfy`, module `Outcomes`: `Option`, and `Outcome`, a promise
  observed at one moment (unsettled, fulfilled or rejected).
- `context.dfy`, module `Contexts`:
  - the observations `done()`, `err()` and `race()` as functions of a
    context's state;
  - `withDeadline`'s arithmetic as `TimeoutFor`;
  - the cascade as a function `Settle` of the whole tree, with its lemmas;
  - class `ContextTree`, which holds every context's parent link, state and
    armed timer, plus the clock. Its methods are the derivations, calling a
    cancel closure (`Invoke`) and letting time pass (`Advance`).
- `scenarios.dfy`, module `ContextScenarios`: clients that replay the cases
  of `src/context.spec.ts` and the timer behaviours of `src/context.ts`
  through the class's contracts alone.

Contexts are numbered in creation order, with the root at 0. A context's
parent link names the context whose rejection it listens to. A parent is
always created before its child, so visiting contexts in creation order
visits every parent before its children. `ContextTree.Reject` uses this to
cascade in one pass. `ContextTree.Valid` keeps three facts:

- the links form a forest;
- the root is pending and has no timer;
- no pending context listens to a done one (`Cascaded`).

### Where the specification and the code differ

The model follows the code in each case:

- A parent's rejection does not clear a `withTimeout` child's timer
  (`src/context.ts:43-47`). The timer stays armed and fires later, to no
  effect. See `ContextScenarios.CascadeLeavesTimerArmed`.
- `withTimeout(0)` is not done when it returns. Only its timer settles it, at
  the next advance of the clock. See `ContextScenarios.ZeroTimeout`.
- A `withDeadline` child whose deadline is not in the future listens to
  nobody (`src/context.ts:62`). Under an already-canceled parent it reports
  `DeadlineExceeded`, not the parent's `Canceled`. See
  `ContextScenarios.ExpiredDeadlineIgnoresParent`.

## Model

| member | source | states |
|---|---|---|
| `Errors.ContextErrorKeepsMessage` | src/error.ts:1-6 | a `ContextError` keeps whatever message it is given and is named `'ContextError'` |
| `Errors.ToStringShowsNameAndMessage` | src/error.ts:1-6 | a `ContextError` with a non-empty message prints as `ContextError: <message>`, and with an empty one as `ContextError` |
| `Errors.FixedReasonMessages` | src/error.ts:8-18 | `DeadlineExceeded` carries `'Deadline has been exceeded'`, `Canceled` carries `'Context has been canceled'`, both keep the base name and print as `ContextError: <message>` |
| `Errors.ReasonsDistinguishable` | src/error.ts:8-18 | two reasons are equal exactly when their messages are, and different reasons print differently |
| `Contexts.DoneSignal` | src/context.ts:22-24 | `done()` is fulfilled exactly when the context is done, and is unsettled exactly when it is pending |
| `Contexts.Err` | src/context.ts:26-28 | `err()` never rejects; it is fulfilled exactly when `done()` is, and then with the stored reason |
| `Contexts.Race` | src/context.ts:30-32 | a done context rejects the race with its own reason whatever the operation did; on a pending context the operation's outcome passes through; the failure comes from the context exactly when the context is done |
| `Contexts.TimeoutFor` | src/context.ts:58-66 | a timeout exists exactly when the deadline is in the future, and then it is positive and ends at the deadline |
| `Contexts.Settle` | src/context.ts:6-13 | the states after the given contexts are rejected and the rejection cascades; it keeps one state per context; its properties are the lemmas below |
| `Contexts.UnderAbove` | src/context.ts:34-43 | a context that listens, directly or through ancestors, to `i` was created after `i` |
| `Contexts.FirstTriggerWins` | src/context.ts:6-13 | a done context keeps its reason whatever trigger reaches it later |
| `Contexts.SettleCascades` | src/context.ts:34-47 | after a rejection no pending context listens to a done one, every context under the rejected ones is done, and every other context keeps its state |
| `Contexts.ChildTakesParentReason` | src/context.ts:34-43 | a pending child settled by the cascade ends with its parent's reason |
| `Contexts.CancelStaysBelow` | src/context.ts:34-39 | canceling a context leaves its parent, its siblings and every earlier context unchanged |
| `Contexts.SettleIdempotent` | src/context.ts:6-13 | rejecting the same contexts again, with any reason, changes nothing |
| `Contexts.TimerFires` | src/context.ts:45-47 | a timer that falls due rejects its pending context with `DeadlineExceeded`, and leaves a context that is already done as it was |
| `Contexts.OnlyDueTimersFire` | src/context.ts:45-53 | a cleared timer, or one not yet due, does not fire |
| `Contexts.FiresOnce` | src/context.ts:45-47 | after the due timers have fired, the timers due at any later time are exactly those due then that had not fired already |
| `Contexts.ContextTree.constructor` | src/context.ts:78 | the tree starts with the root alone, pending, with no timer |
| `Contexts.ContextTree.WithCancel` | src/context.ts:34-39 | a new child listens to `ctx`, has no timer, and comes with a closure that cancels it; the child starts in its parent's state, which applies a done parent's queued cascade at once (see "Left out") |
| `Contexts.ContextTree.WithTimeout` | src/context.ts:41-56 | as `WithCancel`, plus a timer due `timeout` after now, armed even under a done parent; its closure clears the timer and then cancels |
| `Contexts.ContextTree.WithDeadline` | src/context.ts:58-66 | a deadline in the future gives exactly `WithTimeout(deadline - now)`; otherwise the child is already done with `DeadlineExceeded`, listens to nobody, and its closure does nothing |
| `Contexts.ContextTree.Invoke` | src/context.ts:38-54 | only a closure the tree handed out for that context can be called; the `withCancel` closure rejects its context with `Canceled` and cascades; the `withTimeout` closure also clears that context's timer first; the no-op closure changes nothing |
| `Contexts.ContextTree.Advance` | src/context.ts:45-47 | the clock moves forward; every due timer fires once and rejects its context with `DeadlineExceeded`, which cascades; the tree stays valid, so the root stays pending |
| `Contexts.ContextTree.Reject` | src/context.ts:6-13 | one pass in creation order produces exactly `Settle`'s states and keeps the tree valid |
| `ContextScenarios.NonCanceled` | src/context.spec.ts:12-39 | for the root and for each derived context: after ten time units it is not done, a race passes a success through, and canceling a child settles only that child |
| `ContextScenarios.CanceledContext` | src/context.spec.ts:41-67 | once canceled, a derived context is done, a child derived from it is done, a race rejects with `Canceled`, and `err()` yields `Canceled` |
| `ContextScenarios.DeadlineNow` | src/context.spec.ts:69-75 | `withDeadline(now)` reports `DeadlineExceeded` before any time passes |
| `ContextScenarios.TimeoutElapses` | src/context.spec.ts:77-83 | `withTimeout(100)` is pending one unit before its due time, and done with `DeadlineExceeded` at it |
| `ContextScenarios.GrandchildTimesOut` | src/context.ts:34-47 | a `withTimeout(1000)` grandchild expires at time 1000 while its `withCancel` parent and the root stay pending |
| `ContextScenarios.CancelBeatsTimer` | src/context.ts:49-55 | a `withTimeout` child canceled before it expires ends `Canceled`, with its timer cleared, however much time then passes |
| `ContextScenarios.CascadeLeavesTimerArmed` | src/context.ts:43-47 | a parent's cancel gives a `withTimeout` child `Canceled` and leaves its timer armed; the timer later fires with no effect |
| `ContextScenarios.ZeroTimeout` | src/context.ts:41-47 | `withTimeout(0)` is pending when it returns and is done with `DeadlineExceeded` after the next advance of the clock |
| `ContextScenarios.TimeoutAfter` | src/context.ts:41-56 | for every timeout `t` and every elapsed time `e`, `withTimeout(t)` is done with `DeadlineExceeded` exactly when `t <= e`, and pending otherwise |
| `ContextScenarios.DeadlineAfter` | src/context.ts:58-66 | for every deadline `d` taken at time 0, `withDeadline(d)` is done at once exactly when `d <= 0`, and after `e` time units exactly when `d <= e`, always with `DeadlineExceeded` |
| `ContextScenarios.ExpiredDeadlineIgnoresParent` | src/context.ts:58-66 | under a canceled parent, a past deadline gives `DeadlineExceeded` and a future one gives the parent's `Canceled` |

## Left out

- `toAbortSignal` (`src/context.ts:68-75`): it only forwards the reason to the platform's `AbortController`, which is not modelled.
- Contexts.ContextTree.WithCancel: under a parent that is already done, the source returns a pending child and only queues the cascade (`this.p.catch(...)`). The model makes the child done with the parent's reason at once. Two effects of the source are therefore not captured. First, calling the child's closure in the same turn wins: under a `withDeadline` parent born expired, the source's child ends `Canceled`, where the model gives `DeadlineExceeded`. Second, `race` on that child in the same turn, with an operation that has already settled, yields the operation's outcome in the source, where the model rejects with the parent's reason.
- Contexts.ContextTree.WithTimeout: the same holds for its child under a parent that is already done. Its timer is armed either way.
- Promise scheduling: the cascade runs through `.catch` callbacks in later microtasks. The model applies it in the same step as the rejection that causes it. Within one `Advance`, the order of the due timers' callbacks is also not modelled. Every context settled there ends with `DeadlineExceeded` in either order.
- Timers and the clock: `setTimeout`, `clearTimeout` and `Date.now()` become an integer clock in the tree and one due time per context. Node.js sets delays below 1 ms or above 2147483647 ms to 1 ms, and truncates non-integer delays. Neither is modelled: a timer is due exactly `timeout` units after it is armed.
- `Contexts.Race`: the raced operation is an outcome observed at the moment of the race, not a running computation. A race that has already settled with the operation's outcome keeps it when the context ends later; the model does not follow one race over time. The operation's own failure is wrapped in `OperationFailed` rather than sharing one untyped rejection channel with the context's reason.
- Error identity: `err()` returns the same error object on every call. The model compares reasons by value. Stack traces and other `Error` properties are not modelled.
- `ContextError` constructed without a message: modelled as the empty message. This is what `message` and `toString()` report for it.
- Reclaiming contexts that nothing refers to any more: the tree only grows.
- The root-level `context.spec.ts` and `time.spec.ts`: they import a default export and a `time` module that are not part of this model.
