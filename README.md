# rclrs context lifecycle, modelled in Dafny

This project models the lifecycle of the context of `rclrs`, the Rust client of
ROS 2. A `Context` wraps the native handle `rcl_context_t`, which is shared with
every node derived from it, together with one optional shutdown callback.

The model covers these operations:

- `ok()` reports whether the handle is valid.
- `domain_id()` reports the domain id.
- `add_on_shutdown_callback` replaces the callback slot.
- `shutdown()` is a guarded transition: it shuts the handle down once and then runs the callback.
- `Drop for rcl_context_t` shuts a still-valid handle down, then always finalizes it.
- `DefaultContext::get_global_default_context` is the process-wide context, kept in a write-once `OnceCell`.

Files and modules:

- `outcomes.dfy` (`Outcomes`): `Option`, `Result`, and `Outcome`, which is how a call
  ends. `Outcome` is either `Returned(value)` or `Panicked(message)`. The file also has
  `CountOf`, which counts occurrences in a sequence.
- `native.dfy` (`Native`): the abstract native handle. Its state is `Valid`,
  `Invalid` or `Finalized`, and a ghost log records the native calls made on it.
  The class `RclContext` holds the native operations and `Drop`. The function
  `DropNative` is the specification of `Drop`.
- `context.dfy` (`Contexts`): the class `Context` and its methods. Each method is
  proved against a function on values (`ShutdownStep`, `RegisterStep`). The
  function `Exec` runs any sequence of operations on one context, and the lemmas
  about `Exec` state idempotence, monotonic validity, the callback discipline and
  the exactly-once native shutdown and finalize.
- `default_context.dfy` (`DefaultContexts`): the class `DefaultContext` and the
  cell `GlobalDefaultContext`. The method `GetGlobalDefaultContext` is proved
  against the function `GetOrInit`. The lemmas about `Serve` (any sequence of
  calls) state "first successful call wins, later arguments are ignored, never
  replaced".

How the native layer is abstracted:

- Whether `rcl_init`, `rcl_shutdown` or `rcl_context_fini` succeeds is a boolean
  parameter of the operation that makes the call.
- The assumptions about the native layer are:
  - a successful `rcl_shutdown` makes the handle invalid (doc comment at
    rclrs/src/context.rs:163);
  - a native call that fails leaves the state as it was;
  - `rcl_context_get_domain_id` succeeds exactly while the handle is valid.
- A handle whose `rcl_init` failed is invalid from the start
  (rclrs/src/context.rs:14-15, 174-175).
- The command-line arguments are an uninterpreted `seq<string>`.
- The domain id is the value resolved when the handle was built.
- A callback is an opaque identity. Each invocation is recorded, together with the
  handle state at that moment, in the ghost `runs` log.

Panics are modelled as `Panicked` outcomes that carry the fixed prefix of each
message; the part the source appends (the native error, the error's debug form,
or the two compared values) is not modelled. A failing native shutdown inside
`shutdown()` panics with a message starting "Failed to finalize context". So does
a failing finalize in `Drop`. A failing `Context::new` inside
`get_global_default_context` panics through `unwrap`. In `Exec` a panic ends the
run: it is raised while the handle's mutex is held, so the mutex is poisoned.

Points where the code behaves in a way a reader might not expect; the model
follows the code:

- In `shutdown()` the callback runs while the handle's mutex is still held
  (rclrs/src/context.rs:173-188), so a callback that calls `ok()` on the same
  context does not return (it may deadlock or panic).
- `domain_id()` does not return an error on an invalid context. A failing native
  query trips `debug_assert_eq!` in a debug build; a release build returns the
  initial 0 (rclrs/src/context.rs:94-103).
- The default context does not hand construction errors back: it panics through
  `unwrap` (rclrs/src/context/default_context.rs:21).
- `Drop for rcl_context_t` ignores the return value of its `rcl_shutdown`
  (rclrs/src/context.rs:18). Only a failing finalize panics.

## Model

| member | source | states |
|---|---|---|
| `Native.DropNative` | rclrs/src/context.rs:11-26 | dropping a handle makes exactly one more `rcl_shutdown` call than before if it was valid and none if it was invalid (failed init); it always adds exactly one `rcl_context_fini`, as the last call; the outcome panics with "Failed to finalize context" exactly when finalize fails; on success the handle is finalized |
| `Native.ShutdownNative` | rclrs/src/context.rs:181 | native shutdown of a valid handle makes exactly one more `rcl_shutdown` call and no finalize, keeps the earlier calls, and leaves the handle invalid exactly when it succeeds |
| `Native.FiniNative` | rclrs/src/context.rs:21 | native finalize appends exactly one `rcl_context_fini` call and no shutdown; success leaves the handle finalized, failure leaves its state as it was |
| `Native.RclContext.Drop` | rclrs/src/context.rs:11-26 | the method's outcome and new handle state are those `DropNative` gives for the old state; the result of the inner shutdown is ignored |
| `Native.RclContext.Init` | rclrs/src/context.rs:14-15 | a handle is valid after a successful `rcl_init`, invalid from the start after a failed one, with no native calls yet, and keeps its arguments and domain id |
| `Native.RclContext.IsValid` | rclrs/src/context.rs:17 | `rcl_context_is_valid` answers `true` exactly when the abstract handle is valid |
| `Native.RclContext.Shutdown` | rclrs/src/context.rs:181 | native shutdown of a valid handle: success leaves it invalid, and the call is logged |
| `Native.RclContext.Fini` | rclrs/src/context.rs:21 | native finalize: success leaves the handle finalized, and the call is logged |
| `Native.RclContext.GetDomainId` | rclrs/src/context.rs:97-99 | native query that yields the handle's domain id while it is valid, an error otherwise |
| `Contexts.ShutdownStep` | rclrs/src/context.rs:171-192 | `false` exactly when the handle is not valid, and then nothing changes; `true` exactly when it was valid and native shutdown succeeded, after which the handle is invalid and the registered callback, if any, has run once with the handle invalid; a panic exactly when native shutdown failed, with no callback run; native shutdown is called exactly when the handle was valid; the slot is untouched |
| `Contexts.RegisterStep` | rclrs/src/context.rs:156-161 | registering puts the new callback in the slot, whatever it held, and leaves the handle and the callback log alone |
| `Contexts.Step` | rclrs/src/context.rs:61-192 | `ok()` changes nothing and answers whether the handle is valid; `add_on_shutdown_callback` replies `Registered`, fills the slot and leaves the handle and the callback log alone; `shutdown()` has the state and the reply `ShutdownStep` gives (`ShutdownReply(b)` when it returns `b`, `Aborted` with the message when it panics); on a handle that is not valid every call gives its quiet reply; no call finalizes a live handle |
| `Contexts.Exec` | rclrs/src/context.rs:171-192 | a run answers every operation unless a panic ends it early, and never finalizes the handle |
| `Contexts.InvalidIsFinal` | rclrs/src/context.rs:177-179 | once the handle is invalid, no sequence of calls changes it, calls native code or runs a callback; every call is answered, each `ok()` with `false`, each `shutdown()` with `false` and each registration with `Registered` |
| `Contexts.ShutdownSucceedsAtMostOnce` | rclrs/src/context.rs:177-190 | across any sequence of calls at most one `shutdown()` returns `true`, and none does on a context that was not valid |
| `Contexts.QuietAfterShutdown` | rclrs/src/context.rs:163-179 | after a `shutdown()` that returned `true`, each later call gets its quiet reply: `ok()` is `false`, `shutdown()` is `false`, a registration is `Registered` |
| `Contexts.CallbackRunsOnlyAfterShutdown` | rclrs/src/context.rs:181-188 | callbacks run only inside successful shutdowns: the log only grows, by at most one entry per `true` reply, and every entry was made while the handle was invalid |
| `Contexts.LastRegistrationWins` | rclrs/src/context.rs:156-161 | registering callbacks in order leaves the last one in the slot and touches neither the handle nor the callback log |
| `Contexts.RegisterThenShutdown` | rclrs/src/context.rs:156-190 | registering several callbacks and then shutting a valid context down runs exactly the last-registered callback, exactly once, and leaves the handle invalid |
| `Contexts.ExecKeepsAccounted` | rclrs/src/context.rs:177-184 | in a run without a panic, never more than one native shutdown is made (exactly one once the handle is invalid) and no finalize |
| `Contexts.ExecNativeCalls` | rclrs/src/context.rs:171-192 | any run, even one ended by a panic, makes no finalize and at most one native shutdown, none on a handle that was not valid |
| `Contexts.PanicThenDropShutsDownTwice` | rclrs/src/context.rs:11-26 | a `shutdown()` whose native shutdown fails panics and leaves the handle valid, and the drop then makes a second `rcl_shutdown` |
| `Contexts.Lifetime` | rclrs/src/context.rs:11-26 | a context from `Context::new`, whatever calls are made on it, ends after the drop of its handle with exactly one finalize, made last, and at most two native shutdowns; when no call panics, exactly one native shutdown |
| `Contexts.Context.New` | rclrs/src/context.rs:53-55 | `Context::new` succeeds exactly when `rcl_init` does; the new context has a fresh valid handle with the given arguments and domain id, no callback and no invocations |
| `Contexts.Context.Ok` | rclrs/src/context.rs:61-67 | `ok()` is `true` exactly when the handle is valid, and changes nothing |
| `Contexts.Context.DomainId` | rclrs/src/context.rs:92-104 | on a valid context, returns the domain id the context was built with (`UsageExamples` passes the doc-test values 10 and 11 to `Context.New`); otherwise panics in a debug build or returns 0 in a release build; changes nothing |
| `Contexts.Context.AddOnShutdownCallback` | rclrs/src/context.rs:159-161 | the slot holds the new callback, which replaces any earlier one; handle validity and the callback log are unchanged |
| `Contexts.Context.Shutdown` | rclrs/src/context.rs:171-192 | the method's result and new state are those of `ShutdownStep`; a `true` result leaves `ok()` `false`; on an invalid context it returns `false` and changes nothing |
| `Contexts.UsageExamples` | rclrs/src/context.rs:79-91 | the domain-id doc test: contexts built with domain ids 10 and 11 report 10 and 11; together with `test_context_ok` (rclrs/src/context.rs:216-222) and the `shutdown` doc test (rclrs/src/context.rs:166-169): a new context is `ok()`, its first `shutdown()` returns `true`, a second returns `false`, and `ok()` is then `false` |
| `Contexts.Context.constructor` | rclrs/src/context.rs:45-48 | a context built on a handle that is not finalized holds that handle, starts with an empty callback slot, and is live |
| `DefaultContexts.GetOrInit` | rclrs/src/context/default_context.rs:17-24 | a set cell returns its stored value and changes nothing; an empty cell calls `Context::new` once, succeeds exactly when it does, and then stores and returns the context built from this call's arguments; a failure panics through `unwrap` and leaves the cell empty |
| `DefaultContexts.SharedByAllCallers` | rclrs/src/context/default_context.rs:14-24 | two callers with different arguments both get the identical instance, built from the first caller's arguments, and it reports `ok()` |
| `DefaultContexts.Serve` | rclrs/src/context/default_context.rs:17-24 | a sequence of calls of `get_global_default_context` gets one answer per call |
| `DefaultContexts.FirstSuccess` | rclrs/src/context/default_context.rs:19-22 | the index of the first call whose construction succeeds: every earlier call fails, and that call succeeds |
| `DefaultContexts.SetCellIsFinal` | rclrs/src/context/default_context.rs:16-19 | once the cell is set, it is never cleared or replaced and never builds another context, and every call returns the stored instance whatever its arguments |
| `DefaultContexts.FirstSuccessWins` | rclrs/src/context/default_context.rs:19-22 | from an empty cell, every call panics until the first successful construction; that call builds the context from its own arguments, and it and all later calls return that one instance; exactly one construction succeeds, and none is attempted after it |
| `DefaultContexts.GlobalDefaultContext.GetGlobalDefaultContext` | rclrs/src/context/default_context.rs:17-24 | on a set cell, returns the identical stored instance and leaves the cell unchanged; on an empty cell, builds a fresh context from this call's arguments and stores it, and that context reports `ok()`; if construction fails it panics through `unwrap` and leaves the cell empty; the answer and new cell agree with `GetOrInit` |
| `DefaultContexts.GlobalDefaultContext.constructor` | rclrs/src/context/default_context.rs:18 | the static cell starts empty |
| `DefaultContexts.DefaultContext.constructor` | rclrs/src/context/default_context.rs:8-11 | the holder keeps the shared context it was given |

## Left out

- Locking: the `Mutex` around the handle and the `Mutex` around the default context are not modelled, nor is mutex poisoning; calls are taken one at a time. A panic ends a run in `Exec` instead of poisoning the mutex.
- Thread-safety: `unsafe impl Send` and the Send/Sync unit test are out of scope because they are about threads.
- Concurrent first callers of `get_global_default_context` are not modelled.
- Reference counting: `Arc` and which owner drops last are not modelled. `RclContext.Drop` is the drop that runs when the last owner lets go; `Context.Live` states that a live context's handle is not finalized.
- The native `rcl_*` functions are replaced by the abstract handle state. Their success or failure is a parameter.
- Contexts.Lifetime: the exactly-one native shutdown is stated only for lives without a panic. A panic that unwinds out of `shutdown()` can drop the handle while it is still valid (under the first assumption above), and that drop calls `rcl_shutdown` a second time (`Contexts.PanicThenDropShutsDownTwice`); for those lives only "at most two" is stated. The single finalize holds for every life.
- `ContextBuilder` is not part of this model, nor is resolving the domain id from `ROS_DOMAIN_ID` or a builder override. The resolved domain id is a parameter of `Context.New`.
- What the builder does with the handle of a failed `rcl_init` is not modelled. `Context.New` returns `Failure`, and `DropNative` on an invalid handle describes that handle's drop.
- The foxy variant of `domain_id` (rclrs/src/context.rs:125-136) reads the environment, not the context.
- Callback bodies are not modelled: an invocation is recorded, not executed. A callback cannot re-enter the context; in the source such a callback would re-lock the held mutex, and that call does not return (it may deadlock or panic).
- Argument parsing is not modelled: the arguments are an uninterpreted sequence.
- The example programs under examples/ are tokio `main` functions that spawn threads, publish, sleep and print. They are I/O and concurrency wiring.
- Contexts.Context.DomainId: the domain id is an unbounded `nat` rather than a `usize`; no arithmetic is done on it, so the width does not matter.
