/** `DefaultContext`: the process-wide context, built by the first call of
    `get_global_default_context` and stored in a write-once cell.

    The class `GlobalDefaultContext` is that static cell (a `OnceCell`); the
    function `GetOrInit` gives the same call on values, and the lemmas about
    `Serve` state what any sequence of calls observes. Concurrent first
    callers are not modelled: calls are taken one at a time. */
module DefaultContexts {
  import opened Outcomes
  import opened Native
  import opened Contexts

  /** The fixed prefix of the message `unwrap` panics with when
      `Context::new` fails; the source appends the error's debug form. */
  const UnwrapFailed: string := "called `Result::unwrap()` on an `Err` value"

  /** The context stored in the cell, seen by value: it is the `serial`-th
      context the cell asked `Context::new` for, built from `args`. */
  datatype Stored = Stored(serial: nat, args: seq<string>)

  /** The cell's value: what it holds and how many times it has called
      `Context::new`. */
  datatype Cell = Cell(stored: Option<Stored>, builds: nat)

  /** One call of `get_global_default_context`: its arguments, and whether
      `Context::new` would succeed if this call built the context. */
  datatype Call = Call(args: seq<string>, initSucceeds: bool)

  /** `get_global_default_context` on an empty or a set cell. */
  function GetOrInit(c: Cell, call: Call): (r: (Outcome<Stored>, Cell))
    ensures c.stored.Some? ==> r == (Returned(c.stored.value), c)
    ensures c.stored.None? ==> r.1.builds == c.builds + 1
    ensures c.stored.None? ==> (r.0.Returned? <==> call.initSucceeds)
    ensures c.stored.None? && r.0.Returned? ==>
              r.0.value == Stored(c.builds, call.args) && r.1.stored == Some(r.0.value)
    ensures c.stored.None? && r.0.Panicked? ==>
              r.0.message == UnwrapFailed && r.1.stored == None
  {
    if c.stored.Some? then
      (Returned(c.stored.value), c)
    else if !call.initSucceeds then
      (Panicked(UnwrapFailed), c.(builds := c.builds + 1))
    else
      var st := Stored(c.builds, call.args);
      (Returned(st), Cell(Some(st), c.builds + 1))
  }

  /** The answers to a sequence of calls and the final cell. A panicking
      first call leaves the cell empty, and a later call tries again. */
  function Serve(c: Cell, calls: seq<Call>): (r: (seq<Outcome<Stored>>, Cell))
    ensures |r.0| == |calls|
    decreases |calls|
  {
    if calls == [] then ([], c)
    else
      var (o, c1) := GetOrInit(c, calls[0]);
      var (os, c2) := Serve(c1, calls[1..]);
      ([o] + os, c2)
  }

  /** The index of the first call whose construction succeeds, or the number
      of calls if there is none. */
  function FirstSuccess(calls: seq<Call>): (k: nat)
    ensures k <= |calls|
    ensures k < |calls| ==> calls[k].initSucceeds
    ensures forall i :: 0 <= i < k ==> !calls[i].initSucceeds
    decreases |calls|
  {
    if calls == [] then 0
    else if calls[0].initSucceeds then 0
    else 1 + FirstSuccess(calls[1..])
  }

  /** Once set, the cell is never cleared or replaced, never builds another
      context, and every call returns the stored instance whatever its
      arguments. */
  lemma {:induction false} SetCellIsFinal(c: Cell, calls: seq<Call>)
    requires c.stored.Some?
    ensures Serve(c, calls).1 == c
    ensures forall i :: 0 <= i < |calls| ==> Serve(c, calls).0[i] == Returned(c.stored.value)
    decreases |calls|
  {
    if calls != [] {
      SetCellIsFinal(c, calls[1..]);
      var os := Serve(c, calls[1..]).0;
      assert Serve(c, calls).0 == [Returned(c.stored.value)] + os;
      forall i | 0 <= i < |calls| ensures Serve(c, calls).0[i] == Returned(c.stored.value) {
        if i > 0 { assert Serve(c, calls).0[i] == os[i - 1]; }
      }
    }
  }

  /** From an empty cell, every call before the first successful construction
      panics; that call builds the context from its own arguments, and it and
      every later call return that one instance; exactly one more
      construction happens than there were failures before it. */
  lemma {:induction false} FirstSuccessWins(c: Cell, calls: seq<Call>)
    requires c.stored.None?
    ensures var k := FirstSuccess(calls);
            var r := Serve(c, calls);
            (forall i :: 0 <= i < k ==> r.0[i] == Panicked(UnwrapFailed)) &&
            (k < |calls| ==>
               r.1 == Cell(Some(Stored(c.builds + k, calls[k].args)), c.builds + k + 1) &&
               forall i :: k <= i < |calls| ==> r.0[i] == Returned(Stored(c.builds + k, calls[k].args))) &&
            (k == |calls| ==> r.1 == Cell(None, c.builds + |calls|))
    decreases |calls|
  {
    if calls != [] {
      var (o, c1) := GetOrInit(c, calls[0]);
      var os := Serve(c1, calls[1..]).0;
      assert Serve(c, calls).0 == [o] + os;
      if calls[0].initSucceeds {
        SetCellIsFinal(c1, calls[1..]);
        forall i | 0 <= i < |calls| ensures Serve(c, calls).0[i] == Returned(Stored(c.builds, calls[0].args)) {
          if i > 0 { assert Serve(c, calls).0[i] == os[i - 1]; }
        }
      } else {
        FirstSuccessWins(c1, calls[1..]);
        var k := FirstSuccess(calls);
        assert k == 1 + FirstSuccess(calls[1..]);
        forall i | 0 <= i < |calls| ensures Serve(c, calls).0[i] == if i == 0 then o else os[i - 1] {
        }
        if k < |calls| {
          assert calls[k] == calls[1..][k - 1];
        }
      }
    }
  }

  /** `DefaultContext`: the holder of the shared default `Context`. */
  class DefaultContext {
    const globalDefaultContext: Context
    /** Which construction of the cell produced this holder. */
    ghost const serial: nat

    constructor (context: Context, ghost serial: nat)
      ensures globalDefaultContext == context && this.serial == serial
    {
      globalDefaultContext := context;
      this.serial := serial;
    }
  }

  /** The value of a stored holder. */
  ghost function View(d: DefaultContext): Stored
  {
    Stored(d.serial, d.globalDefaultContext.rclContextMtx.args)
  }

  ghost function OutcomeView(o: Outcome<DefaultContext>): Outcome<Stored>
  {
    match o
    case Returned(d) => Returned(View(d))
    case Panicked(m) => Panicked(m)
  }

  /** The static `OnceCell` behind `get_global_default_context`. */
  class GlobalDefaultContext {
    var cell: Option<DefaultContext>
    /** The number of times the cell has called `Context::new`. */
    ghost var builds: nat

    ghost function Model(): Cell
      reads this
    {
      Cell(if cell.Some? then Some(View(cell.value)) else None, builds)
    }

    /** `OnceCell::new()`: an empty cell. */
    constructor ()
      ensures cell == None && builds == 0
    {
      cell := None;
      builds := 0;
    }

    /** `get_global_default_context`: return the stored holder, or build one
        from this call's arguments, store it and return it. `Context::new`
        failing is a panic through `unwrap`, which leaves the cell empty. */
    method GetGlobalDefaultContext(args: seq<string>, domainId: nat, initSucceeds: bool)
      returns (r: Outcome<DefaultContext>)
      modifies this
      ensures (OutcomeView(r), Model()) == GetOrInit(old(Model()), Call(args, initSucceeds))
      ensures old(cell).Some? ==> r == Returned(old(cell).value) && cell == old(cell)
      ensures old(cell).None? && r.Returned? ==>
                fresh(r.value) && fresh(r.value.globalDefaultContext) &&
                fresh(r.value.globalDefaultContext.rclContextMtx) && cell == Some(r.value)
      ensures old(cell).None? && r.Returned? ==>
                r.value.globalDefaultContext.Model() == Fresh() &&
                r.value.globalDefaultContext.rclContextMtx.args == args &&
                r.value.globalDefaultContext.rclContextMtx.domainId == domainId
    {
      if cell.Some? {
        return Returned(cell.value);
      }
      var built := Context.New(args, domainId, initSucceeds);
      builds := builds + 1;
      if built.Failure? {
        return Panicked(UnwrapFailed);
      }
      var holder := new DefaultContext(built.value, builds - 1);
      cell := Some(holder);
      return Returned(holder);
    }
  }

  /** Two callers with different arguments get the identical instance,
      built from the first caller's arguments, and it reports `ok()`. */
  method SharedByAllCallers() returns (first: Outcome<DefaultContext>, second: Outcome<DefaultContext>, ok: bool)
    ensures first.Returned? && first == second
    ensures second.value.globalDefaultContext.rclContextMtx.args == ["--first"]
    ensures ok
  {
    var global := new GlobalDefaultContext();
    first := global.GetGlobalDefaultContext(["--first"], 0, true);
    second := global.GetGlobalDefaultContext(["--second"], 7, true);
    ok := second.value.globalDefaultContext.Ok();
  }
}
