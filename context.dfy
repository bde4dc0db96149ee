/** `Context`: the shared native handle plus one optional shutdown callback.

    The class `Context` follows the source operation by operation; the
    functions `ShutdownStep`, `RegisterStep` and `Step` give the same
    operations on values, and the lemmas about `Exec` state what any
    sequence of calls on one context can and cannot do. Calls are taken one
    at a time (the mutex that serializes them is not modelled). */
module Contexts {
  import opened Outcomes
  import opened Native

  /** An opaque shutdown callback (`Box<dyn Fn() + Send + Sync>`), known only
      by its identity. */
  datatype Callback = Callback(id: nat)

  /** One invocation of a shutdown callback and the state of the handle at
      the moment it ran. */
  datatype Run = Run(callback: Callback, handle: HandleState)

  /** The error `Context::new` hands back when `rcl_init` fails. */
  datatype RclrsError = RclError

  /** The fixed prefix of the message of `debug_assert_eq!` when the native
      domain-id query failed; the source appends both values. */
  const AssertionFailed: string := "assertion `left == right` failed"

  /** The value of a context: its handle, the callback slot and the callback
      invocations so far. */
  datatype ContextState = ContextState(handle: Handle, callback: Option<Callback>, runs: seq<Run>)

  /** The state of a context that `Context::new` has just built. */
  function Fresh(): ContextState
  {
    ContextState(Handle(Valid, []), None, [])
  }

  /** The invocation a successful shutdown makes: one per registered callback. */
  function Invocation(callback: Option<Callback>, at: HandleState): seq<Run>
  {
    if callback.Some? then [Run(callback.value, at)] else []
  }

  /** `add_on_shutdown_callback`: the slot now holds `callback`, whatever it
      held before; the handle and the invocations are untouched. */
  function RegisterStep(s: ContextState, callback: Callback): (r: ContextState)
    ensures r.callback == Some(callback)
    ensures r.handle == s.handle && r.runs == s.runs
  {
    s.(callback := Some(callback))
  }

  /** `shutdown`, with the outcome of the native shutdown as a parameter. */
  function ShutdownStep(s: ContextState, nativeSucceeds: bool): (r: (Outcome<bool>, ContextState))
    requires s.handle.state != Finalized
    ensures r.0 == Returned(false) <==> s.handle.state != Valid
    ensures r.0 == Returned(false) ==> r.1 == s
    ensures r.0 == Returned(true) <==> s.handle.state == Valid && nativeSucceeds
    ensures r.0 == Returned(true) ==>
              r.1.handle.state == Invalid && r.1.runs == s.runs + Invocation(s.callback, Invalid)
    ensures r.0.Panicked? <==> s.handle.state == Valid && !nativeSucceeds
    ensures r.0.Panicked? ==> r.0.message == FinalizeFailed && r.1.runs == s.runs
    ensures r.1.handle.calls == s.handle.calls + (if s.handle.state == Valid then [RclShutdown] else [])
    ensures r.1.callback == s.callback && r.1.handle.state != Finalized
  {
    if s.handle.state != Valid then
      (Returned(false), s)
    else if !nativeSucceeds then
      (Panicked(FinalizeFailed), s.(handle := ShutdownNative(s.handle, false)))
    else
      var h := ShutdownNative(s.handle, true);
      (Returned(true), s.(handle := h, runs := s.runs + Invocation(s.callback, h.state)))
  }

  /** The operations a holder of a context can call, in any order. */
  datatype Op = QueryOk | Register(callback: Callback) | RequestShutdown(nativeSucceeds: bool)

  /** What each operation answers. `Aborted` is a panic. */
  datatype Reply = OkReply(valid: bool) | Registered | ShutdownReply(performed: bool) | Aborted(message: string)

  /** A reply that shows no valid handle and no transition. */
  predicate Quiet(r: Reply)
  {
    r == OkReply(false) || r == Registered || r == ShutdownReply(false)
  }

  predicate NoAbort(replies: seq<Reply>)
  {
    forall i :: 0 <= i < |replies| ==> !replies[i].Aborted?
  }

  /** The reply of `shutdown()` for the way it ended. */
  function ReplyOf(o: Outcome<bool>): Reply
  {
    match o
    case Returned(b) => ShutdownReply(b)
    case Panicked(m) => Aborted(m)
  }

  /** The reply each operation gives on a handle that is no longer valid. */
  function QuietReply(op: Op): (r: Reply)
    ensures Quiet(r)
  {
    match op
    case QueryOk => OkReply(false)
    case Register(_) => Registered
    case RequestShutdown(_) => ShutdownReply(false)
  }

  /** One call on a live context. */
  function Step(s: ContextState, op: Op): (r: (Reply, ContextState))
    requires s.handle.state != Finalized
    ensures r.1.handle.state != Finalized
    ensures op.QueryOk? ==> r.0 == OkReply(s.handle.state == Valid) && r.1 == s
    ensures op.Register? ==>
              r.0 == Registered && r.1.callback == Some(op.callback) &&
              r.1.handle == s.handle && r.1.runs == s.runs
    ensures op.RequestShutdown? ==>
              r.0 == ReplyOf(ShutdownStep(s, op.nativeSucceeds).0) &&
              r.1 == ShutdownStep(s, op.nativeSucceeds).1
    ensures s.handle.state != Valid ==> r.0 == QuietReply(op)
  {
    match op
    case QueryOk => (OkReply(s.handle.state == Valid), s)
    case Register(cb) => (Registered, RegisterStep(s, cb))
    case RequestShutdown(ok) =>
      var (o, s1) := ShutdownStep(s, ok);
      (ReplyOf(o), s1)
  }

  /** The replies of a sequence of operations and the final state. A panic
      ends the sequence: the mutex it was raised under is left poisoned. */
  function Exec(s: ContextState, ops: seq<Op>): (r: (seq<Reply>, ContextState))
    requires s.handle.state != Finalized
    ensures |r.0| <= |ops|
    ensures NoAbort(r.0) ==> |r.0| == |ops|
    ensures r.1.handle.state != Finalized
    decreases |ops|
  {
    if ops == [] then ([], s)
    else
      var (rep, s1) := Step(s, ops[0]);
      if rep.Aborted? then
        assert [rep][0] == rep;
        ([rep], s1)
      else
        var (reps, s2) := Exec(s1, ops[1..]);
        assert NoAbort([rep] + reps) ==> NoAbort(reps) by {
          if NoAbort([rep] + reps) {
            forall i | 0 <= i < |reps| ensures !reps[i].Aborted? {
              assert reps[i] == ([rep] + reps)[i + 1];
            }
          }
        }
        ([rep] + reps, s2)
  }

  /** Once the handle is invalid, nothing a holder does changes it again,
      calls native code, or runs the callback; every reply is quiet. */
  lemma {:induction false} InvalidIsFinal(s: ContextState, ops: seq<Op>)
    requires s.handle.state == Invalid
    ensures Exec(s, ops).1.handle == s.handle
    ensures Exec(s, ops).1.runs == s.runs
    ensures |Exec(s, ops).0| == |ops|
    ensures forall i :: 0 <= i < |ops| ==> Exec(s, ops).0[i] == QuietReply(ops[i])
    ensures forall i :: 0 <= i < |Exec(s, ops).0| ==> Quiet(Exec(s, ops).0[i])
    decreases |ops|
  {
    if ops != [] {
      var (rep, s1) := Step(s, ops[0]);
      assert rep == QuietReply(ops[0]) && s1.handle == s.handle && s1.runs == s.runs;
      InvalidIsFinal(s1, ops[1..]);
      var reps := Exec(s1, ops[1..]).0;
      assert Exec(s, ops).0 == [rep] + reps;
      forall i | 0 <= i < |ops| ensures Exec(s, ops).0[i] == QuietReply(ops[i]) {
        if i > 0 { assert Exec(s, ops).0[i] == reps[i - 1] && ops[i] == ops[1..][i - 1]; }
      }
    }
  }

  /** Shutdown succeeds at most once: across any sequence of calls at most
      one `shutdown()` returns `true`, and none does if the handle was not
      valid to begin with. */
  lemma {:induction false} ShutdownSucceedsAtMostOnce(s: ContextState, ops: seq<Op>)
    requires s.handle.state != Finalized
    ensures CountOf(Exec(s, ops).0, ShutdownReply(true)) <= (if s.handle.state == Valid then 1 else 0)
    decreases |ops|
  {
    var r := Exec(s, ops).0;
    if s.handle.state == Invalid {
      InvalidIsFinal(s, ops);
      QuietCountsNoTransition(r);
    } else if ops != [] {
      var step := Step(s, ops[0]);
      if step.0.Aborted? {
        assert r == [step.0];
        assert r[1..] == [];
      } else {
        ExecUnfold(s, ops);
        var reps := Exec(step.1, ops[1..]).0;
        assert r[0] == step.0 && r[1..] == reps;
        if step.0 == ShutdownReply(true) {
          InvalidIsFinal(step.1, ops[1..]);
          QuietCountsNoTransition(reps);
        } else {
          assert step.1.handle.state == Valid;
          ShutdownSucceedsAtMostOnce(step.1, ops[1..]);
        }
      }
    }
  }

  /** After a `shutdown()` that returned `true`, every later reply is quiet:
      each later `ok()` is `false`, each later `shutdown()` returns `false`
      and each later registration just registers. */
  lemma {:induction false} QuietAfterShutdown(s: ContextState, ops: seq<Op>)
    requires s.handle.state != Finalized
    ensures forall i, j :: 0 <= i < j < |Exec(s, ops).0| && Exec(s, ops).0[i] == ShutdownReply(true) ==>
              Exec(s, ops).0[j] == QuietReply(ops[j])
    decreases |ops|
  {
    if ops != [] {
      var step := Step(s, ops[0]);
      if !step.0.Aborted? {
        var r := Exec(s, ops).0;
        ExecUnfold(s, ops);
        var reps := Exec(step.1, ops[1..]).0;
        QuietAfterShutdown(step.1, ops[1..]);
        if step.0 == ShutdownReply(true) {
          InvalidIsFinal(step.1, ops[1..]);
        }
        forall i, j | 0 <= i < j < |r| && r[i] == ShutdownReply(true) ensures r[j] == QuietReply(ops[j]) {
          assert r[j] == reps[j - 1] && ops[j] == ops[1..][j - 1];
          if i > 0 { assert r[i] == reps[i - 1]; }
        }
      }
    }
  }

  lemma {:induction false} QuietCountsNoTransition(r: seq<Reply>)
    requires forall i :: 0 <= i < |r| ==> Quiet(r[i])
    ensures CountOf(r, ShutdownReply(true)) == 0
    decreases |r|
  {
    if r != [] {
      assert Quiet(r[0]);
      QuietCountsNoTransition(r[1..]);
    }
  }

  /** Callbacks run only as part of a successful shutdown: at most one
      invocation per `true` reply, each while the handle is already invalid,
      and earlier invocations are never undone. */
  lemma {:induction false} CallbackRunsOnlyAfterShutdown(s: ContextState, ops: seq<Op>)
    requires s.handle.state != Finalized
    ensures s.runs <= Exec(s, ops).1.runs
    ensures |Exec(s, ops).1.runs| <= |s.runs| + CountOf(Exec(s, ops).0, ShutdownReply(true))
    ensures forall i :: |s.runs| <= i < |Exec(s, ops).1.runs| ==> Exec(s, ops).1.runs[i].handle == Invalid
    decreases |ops|
  {
    if ops != [] {
      var (rep, s1) := Step(s, ops[0]);
      assert s.runs <= s1.runs;
      assert |s1.runs| <= |s.runs| + (if rep == ShutdownReply(true) then 1 else 0);
      assert forall i :: |s.runs| <= i < |s1.runs| ==> s1.runs[i].handle == Invalid;
      if !rep.Aborted? {
        var (reps, s2) := Exec(s1, ops[1..]);
        CallbackRunsOnlyAfterShutdown(s1, ops[1..]);
        assert ([rep] + reps)[1..] == reps;
      }
    }
  }

  /** `add_on_shutdown_callback` for each of `cbs`, in order. */
  function Registrations(cbs: seq<Callback>): (ops: seq<Op>)
    ensures |ops| == |cbs|
  {
    if cbs == [] then [] else [Register(cbs[0])] + Registrations(cbs[1..])
  }

  /** Registering callbacks replaces the slot each time (last write wins)
      and touches neither the handle nor the invocations. */
  lemma {:induction false} LastRegistrationWins(s: ContextState, cbs: seq<Callback>)
    requires s.handle.state != Finalized
    ensures Exec(s, Registrations(cbs)).1 ==
              s.(callback := if cbs == [] then s.callback else Some(cbs[|cbs| - 1]))
    ensures NoAbort(Exec(s, Registrations(cbs)).0)
    decreases |cbs|
  {
    if cbs != [] {
      var s1 := RegisterStep(s, cbs[0]);
      assert Registrations(cbs)[1..] == Registrations(cbs[1..]);
      LastRegistrationWins(s1, cbs[1..]);
      var reps := Exec(s1, Registrations(cbs[1..])).0;
      forall i | 0 <= i < |[Registered] + reps| ensures !([Registered] + reps)[i].Aborted? {
        if i > 0 { assert ([Registered] + reps)[i] == reps[i - 1]; }
      }
    }
  }

  /** One step of `Exec` that does not panic. */
  lemma ExecUnfold(s: ContextState, ops: seq<Op>)
    requires s.handle.state != Finalized && ops != [] && !Step(s, ops[0]).0.Aborted?
    ensures Exec(s, ops).0 == [Step(s, ops[0]).0] + Exec(Step(s, ops[0]).1, ops[1..]).0
    ensures Exec(s, ops).1 == Exec(Step(s, ops[0]).1, ops[1..]).1
  {
  }

  /** Running `a` and then `b` is running `a + b`, as long as `a` does not panic. */
  lemma {:induction false} ExecAppend(s: ContextState, a: seq<Op>, b: seq<Op>)
    requires s.handle.state != Finalized
    requires NoAbort(Exec(s, a).0)
    ensures Exec(s, a + b).0 == Exec(s, a).0 + Exec(Exec(s, a).1, b).0
    ensures Exec(s, a + b).1 == Exec(Exec(s, a).1, b).1
    decreases |a|
  {
    if a == [] {
      assert a + b == b;
    } else {
      var step := Step(s, a[0]);
      var rep, s1 := step.0, step.1;
      assert !rep.Aborted? by { assert Exec(s, a).0[0] == rep; }
      ExecUnfold(s, a);
      var reps := Exec(s1, a[1..]).0;
      var mid := Exec(s1, a[1..]).1;
      assert NoAbort(reps) by {
        forall i | 0 <= i < |reps| ensures !reps[i].Aborted? { assert reps[i] == Exec(s, a).0[i + 1]; }
      }
      var ab := a + b;
      assert ab[0] == a[0] && ab[1..] == a[1..] + b;
      ExecUnfold(s, ab);
      ExecAppend(s1, a[1..], b);
      var tail := Exec(mid, b).0;
      assert Exec(s, ab).0 == [rep] + (reps + tail);
      assert [rep] + (reps + tail) == ([rep] + reps) + tail;
    }
  }

  /** Registering several callbacks and then shutting down a valid context
      runs exactly one callback, the last one registered, exactly once. */
  lemma RegisterThenShutdown(s: ContextState, cbs: seq<Callback>)
    requires s.handle.state == Valid && |cbs| > 0
    ensures Exec(s, Registrations(cbs) + [RequestShutdown(true)]).1.runs ==
              s.runs + [Run(cbs[|cbs| - 1], Invalid)]
    ensures Exec(s, Registrations(cbs) + [RequestShutdown(true)]).1.handle.state == Invalid
  {
    LastRegistrationWins(s, cbs);
    ExecAppend(s, Registrations(cbs), [RequestShutdown(true)]);
  }

  /** The native history of a context that is still alive and has not
      panicked: one `rcl_shutdown` exactly when it is no longer valid, and no
      `rcl_context_fini`. */
  predicate Accounted(s: ContextState)
  {
    s.handle.state != Finalized &&
    CountOf(s.handle.calls, RclShutdown) == (if s.handle.state == Valid then 0 else 1) &&
    CountOf(s.handle.calls, RclContextFini) == 0
  }

  lemma {:induction false} ExecKeepsAccounted(s: ContextState, ops: seq<Op>)
    requires Accounted(s)
    requires NoAbort(Exec(s, ops).0)
    ensures Accounted(Exec(s, ops).1)
    decreases |ops|
  {
    if ops != [] {
      var (rep, s1) := Step(s, ops[0]);
      assert !rep.Aborted? by { assert Exec(s, ops).0[0] == rep; }
      if s.handle.state == Valid && ops[0].RequestShutdown? {
        var h1 := ShutdownNative(s.handle, ops[0].nativeSucceeds);
      }
      assert Accounted(s1);
      var reps := Exec(s1, ops[1..]).0;
      assert NoAbort(reps) by {
        forall i | 0 <= i < |reps| ensures !reps[i].Aborted? { assert reps[i] == Exec(s, ops).0[i + 1]; }
      }
      ExecKeepsAccounted(s1, ops[1..]);
    }
  }

  /** No run finalizes the handle, and a run makes at most one native
      shutdown, none if the handle was not valid to begin with. This holds
      for runs that end in a panic too. */
  lemma {:induction false} ExecNativeCalls(s: ContextState, ops: seq<Op>)
    requires s.handle.state != Finalized
    ensures CountOf(Exec(s, ops).1.handle.calls, RclContextFini) == CountOf(s.handle.calls, RclContextFini)
    ensures CountOf(Exec(s, ops).1.handle.calls, RclShutdown) <=
              CountOf(s.handle.calls, RclShutdown) + (if s.handle.state == Valid then 1 else 0)
    decreases |ops|
  {
    if s.handle.state == Invalid {
      InvalidIsFinal(s, ops);
    } else if ops != [] {
      var step := Step(s, ops[0]);
      var s1 := step.1;
      if ops[0].RequestShutdown? {
        var h1 := ShutdownNative(s.handle, ops[0].nativeSucceeds);
      }
      assert CountOf(s1.handle.calls, RclContextFini) == CountOf(s.handle.calls, RclContextFini);
      assert CountOf(s1.handle.calls, RclShutdown) == CountOf(s.handle.calls, RclShutdown) + (if ops[0].RequestShutdown? then 1 else 0);
      if step.0.Aborted? {
        assert Exec(s, ops).1 == s1;
      } else {
        ExecUnfold(s, ops);
        ExecNativeCalls(s1, ops[1..]);
        assert ops[0].RequestShutdown? ==> s1.handle.state == Invalid;
        assert !ops[0].RequestShutdown? ==> s1.handle.state == Valid;
      }
    }
  }

  /** Why `Lifetime` needs `NoAbort` for its exact count: a `shutdown()`
      whose native shutdown fails panics and leaves the handle valid, so the
      drop shuts it down a second time. */
  lemma PanicThenDropShutsDownTwice(shutdownSucceeds: bool, finiSucceeds: bool)
    ensures var r := Exec(Fresh(), [RequestShutdown(false)]);
            r.0 == [Aborted(FinalizeFailed)] &&
            CountOf(DropNative(r.1.handle, shutdownSucceeds, finiSucceeds).1.calls, RclShutdown) == 2
  {
    var r := Exec(Fresh(), [RequestShutdown(false)]);
    assert r.1.handle == Handle(Valid, [RclShutdown]);
    assert CountOf(r.1.handle.calls, RclShutdown) == 1;
  }

  /** The whole life of a context, from `Context::new` through any calls to
      the drop of its handle: the handle is finalized exactly once, as the
      last native call, and shut down at most twice; when no call panics it
      is shut down exactly once (by `shutdown()` or by the drop). */
  lemma Lifetime(ops: seq<Op>, shutdownSucceeds: bool, finiSucceeds: bool)
    ensures var h := DropNative(Exec(Fresh(), ops).1.handle, shutdownSucceeds, finiSucceeds).1;
            CountOf(h.calls, RclContextFini) == 1 && h.calls[|h.calls| - 1] == RclContextFini &&
            CountOf(h.calls, RclShutdown) <= 2
    ensures NoAbort(Exec(Fresh(), ops).0) ==>
              CountOf(DropNative(Exec(Fresh(), ops).1.handle, shutdownSucceeds, finiSucceeds).1.calls, RclShutdown) == 1
  {
    ExecNativeCalls(Fresh(), ops);
    if NoAbort(Exec(Fresh(), ops).0) {
      ExecKeepsAccounted(Fresh(), ops);
    }
  }

  /** `Context`: the shared native handle (`Arc<Mutex<rcl_context_t>>`) and
      the optional shutdown callback. */
  class Context {
    const rclContextMtx: RclContext
    var shutdownCallback: Option<Callback>
    /** The invocations of the shutdown callback so far. */
    ghost var runs: seq<Run>

    ghost function Model(): ContextState
      reads this, rclContextMtx
    {
      ContextState(rclContextMtx.Model(), shutdownCallback, runs)
    }

    /** A context keeps its handle alive: the handle is finalized only when
        the last owner is dropped. */
    ghost predicate Live()
      reads this, rclContextMtx
    {
      rclContextMtx.state != Finalized
    }

    constructor (handle: RclContext)
      requires handle.state != Finalized
      ensures rclContextMtx == handle && shutdownCallback == None && runs == []
      ensures Live()
    {
      rclContextMtx := handle;
      shutdownCallback := None;
      runs := [];
    }

    /** `Context::new`: initialize a handle from the arguments; the domain id
        it resolves and whether `rcl_init` succeeds are parameters. */
    static method New(args: seq<string>, domainId: nat, initSucceeds: bool) returns (r: Result<Context, RclrsError>)
      ensures r.Success? <==> initSucceeds
      ensures r.Success? ==> fresh(r.value) && fresh(r.value.rclContextMtx)
      ensures r.Success? ==> r.value.Model() == Fresh()
      ensures r.Success? ==> r.value.rclContextMtx.args == args && r.value.rclContextMtx.domainId == domainId
    {
      var handle := new RclContext.Init(args, domainId, initSucceeds);
      if !initSucceeds {
        return Failure(RclError);
      }
      var c := new Context(handle);
      return Success(c);
    }

    /** `ok`: whether the handle is still valid. Reads only. */
    method Ok() returns (valid: bool)
      ensures valid <==> rclContextMtx.state == Valid
    {
      valid := rclContextMtx.IsValid();
    }

    /** `domain_id`: the domain id the handle was initialized with. When the
        native query fails, a debug build panics in `debug_assert_eq!` and a
        release build returns the initial 0. Reads only. */
    method DomainId(debugAssertions: bool) returns (r: Outcome<nat>)
      ensures rclContextMtx.state == Valid ==> r == Returned(rclContextMtx.domainId)
      ensures rclContextMtx.state != Valid && debugAssertions ==> r == Panicked(AssertionFailed)
      ensures rclContextMtx.state != Valid && !debugAssertions ==> r == Returned(0)
    {
      var domainId: nat := 0;
      var ret := rclContextMtx.GetDomainId();
      if ret.Some? {
        domainId := ret.value;
      } else if debugAssertions {
        return Panicked(AssertionFailed);
      }
      return Returned(domainId);
    }

    /** `add_on_shutdown_callback`: replace the callback slot. */
    method AddOnShutdownCallback(callback: Callback)
      modifies this`shutdownCallback
      ensures Model() == RegisterStep(old(Model()), callback)
      ensures shutdownCallback == Some(callback)
      ensures rclContextMtx.state == old(rclContextMtx.state)
    {
      shutdownCallback := Some(callback);
    }

    /** `shutdown`: a no-op returning `false` when the handle is already
        invalid; otherwise shut the handle down (a native failure panics),
        run the callback if one is registered, and return `true`. The
        callback runs with the handle's mutex still held. */
    method Shutdown(nativeSucceeds: bool) returns (r: Outcome<bool>)
      requires Live()
      modifies rclContextMtx, this`runs
      ensures (r, Model()) == ShutdownStep(old(Model()), nativeSucceeds)
      ensures r == Returned(true) ==> !rclContextMtx.IsValid()
      ensures old(rclContextMtx.state) != Valid ==> r == Returned(false) && unchanged(rclContextMtx, this)
    {
      if !rclContextMtx.IsValid() {
        return Returned(false);
      }
      var ret := rclContextMtx.Shutdown(nativeSucceeds);
      if !ret {
        return Panicked(FinalizeFailed);
      }
      if shutdownCallback.Some? {
        runs := runs + [Run(shutdownCallback.value, rclContextMtx.state)];
      } else {
        assert runs + Invocation(shutdownCallback, Invalid) == runs;
      }
      return Returned(true);
    }
  }

  /** The unit test `test_context_ok` and the examples in the doc comments of
      `shutdown` and `domain_id`, as clients of the contracts above. */
  method UsageExamples()
    returns (okBefore: bool, first: Outcome<bool>, second: Outcome<bool>, okAfter: bool,
             fromEnvironment: Outcome<nat>, fromBuilder: Outcome<nat>)
    ensures okBefore && first == Returned(true)
    ensures second == Returned(false) && !okAfter
    ensures fromEnvironment == Returned(10) && fromBuilder == Returned(11)
  {
    var created := Context.New([], 0, true);
    var context := created.value;
    okBefore := context.Ok();
    first := context.Shutdown(true);
    second := context.Shutdown(true);
    okAfter := context.Ok();

    var environment := Context.New([], 10, true);
    fromEnvironment := environment.value.DomainId(true);
    var builder := Context.New([], 11, true);
    fromBuilder := builder.value.DomainId(true);
  }
}
