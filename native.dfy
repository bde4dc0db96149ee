/** The native context handle `rcl_context_t`, seen only through its state.

    The native library is not modelled; each native call becomes a guarded
    update of the handle's state, and the success or failure of a call is a
    parameter. The assumptions about the native layer are: a successful
    `rcl_shutdown` leaves the handle invalid; a native call that fails
    leaves the state as it was; `rcl_context_get_domain_id` succeeds exactly
    while the handle is valid. */
module Native {
  import opened Outcomes

  /** What `rcl_context_is_valid` would answer, plus the end of the handle's life.
      `Invalid` is both "shut down" and "rcl_init failed". */
  datatype HandleState = Valid | Invalid | Finalized

  /** The native calls that change a handle, in the order they are made. */
  datatype NativeCall = RclShutdown | RclContextFini

  /** The value of a handle: its state and the history of native calls on it. */
  datatype Handle = Handle(state: HandleState, calls: seq<NativeCall>)

  /** The fixed prefix of the one panic message the context code uses, both
      for a failing `rcl_shutdown` and for a failing `rcl_context_fini`; the
      source appends the native error. */
  const FinalizeFailed: string := "Failed to finalize context"

  /** `rcl_shutdown` on a valid handle. */
  function ShutdownNative(h: Handle, succeeds: bool): (r: Handle)
    requires h.state == Valid
    ensures r.state == Invalid <==> succeeds
    ensures r.state != Finalized
    ensures h.calls <= r.calls
    ensures CountOf(r.calls, RclShutdown) == CountOf(h.calls, RclShutdown) + 1
    ensures CountOf(r.calls, RclContextFini) == CountOf(h.calls, RclContextFini)
  {
    CountOfAppend(h.calls, [RclShutdown], RclShutdown);
    CountOfAppend(h.calls, [RclShutdown], RclContextFini);
    Handle(if succeeds then Invalid else Valid, h.calls + [RclShutdown])
  }

  /** `rcl_context_fini` on a handle not yet finalized. */
  function FiniNative(h: Handle, succeeds: bool): (r: Handle)
    requires h.state != Finalized
    ensures succeeds ==> r.state == Finalized
    ensures !succeeds ==> r.state == h.state
    ensures r.calls == h.calls + [RclContextFini]
    ensures CountOf(r.calls, RclContextFini) == CountOf(h.calls, RclContextFini) + 1
    ensures CountOf(r.calls, RclShutdown) == CountOf(h.calls, RclShutdown)
  {
    CountOfAppend(h.calls, [RclContextFini], RclShutdown);
    CountOfAppend(h.calls, [RclContextFini], RclContextFini);
    Handle(if succeeds then Finalized else h.state, h.calls + [RclContextFini])
  }

  /** `Drop for rcl_context_t`: shut the handle down if it is still valid,
      ignoring whether that worked, then always finalize it; a failing
      finalize panics. */
  function DropNative(h: Handle, shutdownSucceeds: bool, finiSucceeds: bool): (r: (Outcome<()>, Handle))
    requires h.state != Finalized
    ensures CountOf(r.1.calls, RclShutdown) == CountOf(h.calls, RclShutdown) + (if h.state == Valid then 1 else 0)
    ensures CountOf(r.1.calls, RclContextFini) == CountOf(h.calls, RclContextFini) + 1
    ensures |r.1.calls| > 0 && r.1.calls[|r.1.calls| - 1] == RclContextFini
    ensures h.calls <= r.1.calls
    ensures r.0.Returned? <==> finiSucceeds
    ensures r.0.Panicked? ==> r.0.message == FinalizeFailed
    ensures finiSucceeds ==> r.1.state == Finalized
  {
    var h1 := if h.state == Valid then ShutdownNative(h, shutdownSucceeds) else h;
    var h2 := FiniNative(h1, finiSucceeds);
    (if finiSucceeds then Returned(()) else Panicked(FinalizeFailed), h2)
  }

  /** `rcl_context_t`: the native context, shared by the `Context` and
      everything derived from it. */
  class RclContext {
    var state: HandleState
    /** The command-line arguments the handle was initialized with. */
    const args: seq<string>
    /** The domain id resolved when the handle was initialized. */
    const domainId: nat
    /** The native calls made on this handle so far. */
    ghost var calls: seq<NativeCall>

    ghost function Model(): Handle
      reads this
    {
      Handle(state, calls)
    }

    /** `rcl_init` into a zero-initialized handle: valid when initialization
        succeeded, invalid from the start otherwise. */
    constructor Init(args: seq<string>, domainId: nat, initSucceeds: bool)
      ensures Model() == Handle(if initSucceeds then Valid else Invalid, [])
      ensures this.args == args && this.domainId == domainId
    {
      state := if initSucceeds then Valid else Invalid;
      this.args := args;
      this.domainId := domainId;
      calls := [];
    }

    /** `rcl_context_is_valid`, which has no preconditions: it answers for
        the abstract state of the handle. */
    predicate IsValid()
      reads this
      ensures IsValid() <==> Model().state == Valid
    {
      state == Valid
    }

    /** `rcl_shutdown`; the return value says whether it succeeded. */
    method Shutdown(succeeds: bool) returns (ok: bool)
      requires state == Valid
      modifies this
      ensures ok == succeeds
      ensures Model() == ShutdownNative(old(Model()), succeeds)
    {
      state := if succeeds then Invalid else Valid;
      calls := calls + [RclShutdown];
      ok := succeeds;
    }

    /** `rcl_context_fini`; the return value says whether it succeeded. */
    method Fini(succeeds: bool) returns (ok: bool)
      requires state != Finalized
      modifies this
      ensures ok == succeeds
      ensures Model() == FiniNative(old(Model()), succeeds)
    {
      if succeeds {
        state := Finalized;
      }
      calls := calls + [RclContextFini];
      ok := succeeds;
    }

    /** `rcl_context_get_domain_id`: the domain id while the handle is
        valid, an error code otherwise. */
    method GetDomainId() returns (id: Option<nat>)
      ensures state == Valid ==> id == Some(domainId)
      ensures state != Valid ==> id == None
    {
      if IsValid() {
        id := Some(domainId);
      } else {
        id := None;
      }
    }

    /** `Drop for rcl_context_t`, run once when the last owner lets go. */
    method Drop(shutdownSucceeds: bool, finiSucceeds: bool) returns (o: Outcome<()>)
      requires state != Finalized
      modifies this
      ensures (o, Model()) == DropNative(old(Model()), shutdownSucceeds, finiSucceeds)
    {
      if IsValid() {
        // The result of the native shutdown is not looked at.
        var ignored := Shutdown(shutdownSucceeds);
      }
      var ok := Fini(finiSucceeds);
      if !ok {
        return Panicked(FinalizeFailed);
      }
      return Returned(());
    }
  }
}
