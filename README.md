# node-pothole in Dafny

A model of the client-side rate limiter `pothole`. A *pothole* lets at most
`window.size` callables run per window of `window.length` milliseconds:
`enqueue` runs a callable at once while quota is left, nothing is waiting and
the pothole is started, and otherwise pushes it onto a backlog; at every
window boundary `_init` resets the quota and drains the backlog **from its
end** (last in, first out) until the backlog is empty or the quota is spent.
A *pothole multiplexer* keeps potholes under string labels, refuses duplicate
and unknown labels, and starts a pothole lazily on the first `enqueue` for
its label.

Files:

- `wrappers.dfy` — `Option` and `Result`.
- `limiter_spec.dfy` — module `LimiterSpec`: one pothole's state as a value
  (`Limiter`, with the log `executed` of every callable invoked), the
  transition of each operation (`Enqueued`, `Drained`, `WindowOpened`,
  `Started`, `Stopped`, `Report`), and the lemmas about them.
- `pothole.dfy` — module `Pothole`: class `Pothole` with the source's fields,
  whose methods update them in place and are proved to move `Model()` exactly
  as the `LimiterSpec` functions say. `Init` is the drain loop of `_init`,
  with its invariant. Callables are opaque ids (`FnId`); invoking one appends
  it to the ghost field `executed`.
- `mux_spec.dfy` — module `MuxSpec`: the registry as a value (`Mux`: label to
  `Limiter`, plus the set of labels with a pending start) and its transitions
  and lemmas.
- `pothole_mux.dfy` — module `PotholeMux`: class `PotholeMux` with the two
  dictionaries, proved against `MuxSpec`.

Errors the source throws are `Result` failures. The pothole constructor's
only error is `InvalidWindow` (`LimiterSpec.Error`). The registry's errors
(`MuxSpec.MuxError`) are `WindowRejected(InvalidWindow)` for the
constructor's error passed through `add`, `PotholeExists` for a duplicate
label in `add` and `PotholeMissing` for an unknown label.

The clock reading `Date.now()` is a parameter `now`. The recurring timer of a
started pothole is the method `Tick(now)`, which the environment may call only
while the pothole is started. `start` on a pothole that is already started
installs a second timer. This can happen through the registry: `add` returns
the pothole, the caller may `start` it, and the first `enqueue` on its label
starts it again (lib/pothole-mux.js:63-65). `stop` clears only the latest
timer (lib/pothole.js:95, 102), so the earlier one keeps firing on a stopped
pothole. In the model those ticks are calls to `Init`, which any state admits,
not to `Tick`.

The constructor checks only that size and length are *numbers*, so a negative
window size is accepted. Its effect depends on the backlog at `start`:

- Started with an empty backlog, the pothole never meets `enqueue`'s quota
  test (`remaining === 0`), so every later callable runs at once
  (`NegativeSizeUnthrottled`).
- Started with something already queued, the pothole never runs anything. The
  drain needs `remaining > 0`, and the waiting backlog makes every later
  submission queue behind it (`NegativeSizeStrandsBacklog`).

## Model

| member | source | states |
|---|---|---|
| `LimiterSpec.ParseWindow` | lib/pothole.js:14-24 | the options are accepted exactly when the window is an object whose size and length are both numbers, and then the window carries those two values; anything else is `InvalidWindow` |
| `Pothole.Pothole.Create` | lib/pothole.js:13-31 | construction fails with `InvalidWindow` exactly when the window is malformed; on success the pothole is new, not started, with an empty backlog, `remaining = -1`, `next = -1` and nothing executed |
| `Pothole.Pothole.constructor` | lib/pothole.js:26-31 | the initial state: not started, empty backlog, `remaining = -1`, `next = -1` |
| `Pothole.Pothole.Enqueue` | lib/pothole.js:38-59 | returns the pothole itself; a non-function changes nothing; when the backlog is non-empty, `remaining == 0` or the pothole is not started, the callable is appended to the end of the backlog and nothing runs; otherwise it runs exactly once, `remaining` drops by exactly 1 and the backlog is unchanged |
| `Pothole.Pothole.Add` | lib/pothole.js:35 | the alias `add` behaves exactly as `enqueue` |
| `Pothole.Pothole.Stats` | lib/pothole.js:61-73 | the report is backlog length, window size, window length, `remaining` and `next` exactly as stored |
| `Pothole.Pothole.Init` | lib/pothole.js:75-90 | the loop leaves the state `WindowOpened(old state, now)`; afterwards the backlog is empty or `remaining <= 0`, and the started flag is unchanged |
| `Pothole.Pothole.Tick` | lib/pothole.js:95 | a timer tick, allowed only while started, performs one window-open cycle and the pothole stays started |
| `Pothole.Pothole.Start` | lib/pothole.js:92-98 | returns the pothole itself, in the state of one window-open cycle followed by `started = true` |
| `Pothole.Pothole.Sink` | lib/pothole.js:34 | the alias `sink` behaves exactly as `start` |
| `Pothole.Pothole.Stop` | lib/pothole.js:100-105 | returns the pothole itself with `started = false`; backlog, `remaining` and `next` are untouched |
| `LimiterSpec.DrainedClosedForm` | lib/pothole.js:85-89 | the drain loop runs k = min(quota, backlog length) callables (none for a quota that is not positive), taken from the end of the backlog newest first; the backlog keeps its first length-k entries and the quota drops by k |
| `LimiterSpec.WindowOpenedResult` | lib/pothole.js:75-90 | a window-open cycle sets `next = now + length` and `remaining = size - k` with k = min(size, backlog length), runs the last k queued callables in LIFO order, keeps the original prefix queued, and ends with an empty backlog or `remaining == 0` (for size >= 0) |
| `LimiterSpec.LatestRunsFirst` | lib/pothole.js:85-87 | with a positive window size, the first callable run at a window boundary is the most recently queued one |
| `LimiterSpec.ThrottledPreserved` | lib/pothole.js:47-55 | with size >= 0, `start` and every window-open cycle establish, and `enqueue` keeps, the invariant: while started, `0 <= remaining <= size` and a non-empty backlog means `remaining == 0`; the invariant says nothing about a stopped pothole, so it holds after `stop` trivially; this relies on callables not calling back into their pothole (see "Left out") |
| `LimiterSpec.EnqueuedAllSpendsQuota` | lib/pothole.js:52-55 | over any sequence of submissions, each callable run costs exactly one unit of quota (`|executed| + remaining` is kept), and the invariant above is kept |
| `LimiterSpec.QuotaPerWindow` | lib/pothole.js:75-97 | the rate limit itself: from a window-open cycle (at `start`, or at a tick while started) until the next one, at most `size` callables run, counting the drained backlog and the callables `enqueue` runs |
| `LimiterSpec.QueuedWhileStopped` | lib/pothole.js:47-51 | while not started, any sequence of submissions is appended to the backlog in order and nothing runs |
| `LimiterSpec.RunWithinQuota` | lib/pothole.js:52-56 | started with an empty backlog and quota n, the next n submissions run at once in submission order, each taking one unit of quota |
| `LimiterSpec.QuotaExhaustedQueues` | lib/pothole.js:47-51 | after exactly `remaining` immediate runs, the next submission is queued and not run, with `remaining == 0` |
| `LimiterSpec.LifoAtStart` | lib/pothole.js:92-97 | callables submitted before `start` are drained by it last-submitted first, min(size, count) of them, and the earliest ones stay queued |
| `LimiterSpec.RestartDrainsBacklog` | lib/pothole.js:100-105 | `stop` keeps whatever backlog the pothole has, later submissions are appended to its end and nothing runs, and the next `start` drains the whole backlog as a window-open cycle does: the last k = min(size, backlog length) run newest first and the quota drops to size - k |
| `LimiterSpec.NegativeQuotaNeverQueues` | lib/pothole.js:47-55 | started with an empty backlog and a negative quota, every submission runs at once |
| `LimiterSpec.NegativeSizeUnthrottled` | lib/pothole.js:20-22 | a pothole built with a negative window size and started with an empty backlog runs every submitted callable immediately |
| `LimiterSpec.BacklogBlocksRuns` | lib/pothole.js:47-51 | while anything waits in the backlog, every submission is appended to it and none runs, whatever the quota and started flag |
| `LimiterSpec.NegativeSizeStrandsBacklog` | lib/pothole.js:47-89 | with a negative window size, a callable queued before `start` never runs, nor does anything submitted later: `start` and every later window-open cycle leave the backlog and the log of run callables as they are |
| `LimiterSpec.StatsAfterThreeSubmissions` | test/test.pothole.js:160-175 | with size 2 and length 1500, started, three submissions give a report of backlog length 1, size 2, length 1500, `remaining` 0 |
| `PotholeMux.PotholeMux.constructor` | lib/pothole-mux.js:17-20 | a new registry has no potholes and no pending starts |
| `PotholeMux.PotholeMux.CheckForPothole` | lib/pothole-mux.js:29-34 | succeeds exactly when the label is registered, returning the stored pothole; otherwise fails with `PotholeMissing` |
| `PotholeMux.PotholeMux.Add` | lib/pothole-mux.js:44-52 | a duplicate label or malformed options fail and leave both dictionaries unchanged; otherwise a new, unstarted pothole is stored under the label, the label is marked for a pending start, the new pothole is returned and no other label changes |
| `PotholeMux.PotholeMux.Enqueue` | lib/pothole-mux.js:61-71 | an unknown label fails and nothing changes; otherwise returns the registry itself, after starting the named pothole if its start was pending (clearing the mark) and submitting the callable to it; the dictionary of potholes keeps its entries |
| `PotholeMux.PotholeMux.StartIfPending` | lib/pothole-mux.js:63-67 | the named pothole is started (one window-open cycle, then marked started) exactly when its label was marked pending, the mark is cleared, and no other label's pothole changes |
| `PotholeMux.PotholeMux.Submit` | lib/pothole-mux.js:68-69 | the callable reaches the named pothole's own `enqueue`; the pending marks and every other label's pothole stay as they were |
| `PotholeMux.PotholeMux.Stats` | lib/pothole-mux.js:79-82 | an unknown label fails; otherwise the result equals the named pothole's own `stats()` |
| `PotholeMux.PotholeMux.Stop` | lib/pothole-mux.js:90-94 | an unknown label fails and nothing changes; otherwise returns the stored pothole, now stopped, with the pending marks untouched |
| `MuxSpec.UnknownNameFails` | lib/pothole-mux.js:29-34 | with an unregistered label, lookup, `enqueue`, `stats` and `stop` all fail with `PotholeMissing` |
| `MuxSpec.KnownNameFound` | lib/pothole-mux.js:79-82 | with a registered label, lookup returns its pothole and `stats` its report |
| `MuxSpec.DuplicateRefused` | lib/pothole-mux.js:45-47 | `add` with a registered label fails with `PotholeExists` whatever the options |
| `MuxSpec.AddFreshName` | lib/pothole-mux.js:49-51 | `add` with a new label fails exactly when the options are malformed; otherwise it registers an unstarted pothole under that label with a pending start and leaves every other label's pothole and mark as they were |
| `MuxSpec.WellFormedPreserved` | lib/pothole-mux.js:44-71 | pending starts only ever name registered labels |
| `MuxSpec.FirstEnqueueStarts` | lib/pothole-mux.js:63-67 | the first `enqueue` on a pending label succeeds, starts that pothole, clears the mark, then submits the callable to the started pothole |
| `MuxSpec.EnqueueOnlyNamed` | lib/pothole-mux.js:68-70 | `enqueue` on a registered label keeps the set of labels and changes no other label's pothole or pending mark |
| `MuxSpec.StopKeepsPendingStart` | lib/pothole-mux.js:90-94 | stopping a pothole before its first `enqueue` keeps its pending mark, so that first `enqueue` still starts it |
| `MuxSpec.NoRestartAfterStop` | lib/pothole-mux.js:63-69 | once the mark is cleared the registry never starts that pothole again: after a stop, every later `enqueue` only appends to its backlog in order and it stays stopped |

## Left out

- The recurring timer (`setInterval`/`clearInterval`): a tick is the explicit method `Tick`; `start` called twice creates two timers in the source, and the model claims nothing about how many timers exist.
- `Date.now()`: the current time is the parameter `now`.
- The `debug(...)` logging calls.
- lodash's `isNumber`/`isObject`/`isFunction`/`defaultsDeep`: the window is modelled as optional integer fields, so `NaN`, `Infinity` and fractional sizes or lengths are not modelled; a function argument is `Arg.Func`, anything else `Arg.NonFunction`.
- Exceptions thrown by a callable during `enqueue` or `_init`: every callable is assumed to return normally.
- Re-entrant callables: a callable is assumed never to call `enqueue`, `start` or `stop` on the pothole or registry that runs it. The source runs a callable before it decrements the quota (lib/pothole.js:54-55, 87-88). So a callable that enqueues into its own pothole can spend the last unit of quota itself, after which the outer decrement takes `remaining` to -1. From then on `remaining === 0` never holds in that window. With re-entry, `ThrottledPreserved` and `QuotaPerWindow` do not hold for the source.
- Reference identity of the aliases `sink` and `add` with `start` and `enqueue`: they are separate methods that delegate.
- JavaScript object-key quirks of the label dictionaries (such as `__proto__`): labels are map keys.
- `lib/index.js` (a process-wide default registry and re-exports) and the build tooling are not part of this model.
