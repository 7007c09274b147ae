/** The process-wide transaction entry points and the switch that rebinds
    them to no-ops for the rollback isolation strategy. */
module TransactionFacade {

  /** What a module-level transaction name is currently bound to. */
  datatype Binding = Real | Nop

  /** The seven transaction entry points the switch rebinds.  `SetManaged`
      is `transaction.managed(flag)`. */
  datatype TxOp =
    | Commit
    | Rollback
    | SavepointCommit
    | SavepointRollback
    | EnterManagement
    | LeaveManagement
    | SetManaged(flag: bool)

  /** A snapshot of the seven bindings. */
  datatype Bindings = Bindings(
    commit: Binding,
    rollback: Binding,
    savepointCommit: Binding,
    savepointRollback: Binding,
    enterManagement: Binding,
    leaveManagement: Binding,
    managed: Binding)
  {
    /** The binding a call of `op` goes through. */
    function For(op: TxOp): Binding {
      match op
      case Commit => commit
      case Rollback => rollback
      case SavepointCommit => savepointCommit
      case SavepointRollback => savepointRollback
      case EnterManagement => enterManagement
      case LeaveManagement => leaveManagement
      case SetManaged(_) => managed
    }
  }

  /** The bindings saved at import time: every name bound to the real function. */
  const Originals: Bindings := Bindings(Real, Real, Real, Real, Real, Real, Real)

  /** Every name bound to `nop`. */
  const Disabled: Bindings := Bindings(Nop, Nop, Nop, Nop, Nop, Nop, Nop)

  /** The `transaction` module's seven rebindable names. */
  class Facade {
    var commit: Binding
    var rollback: Binding
    var savepointCommit: Binding
    var savepointRollback: Binding
    var enterManagement: Binding
    var leaveManagement: Binding
    var managed: Binding

    function Current(): Bindings
      reads this
    {
      Bindings(commit, rollback, savepointCommit, savepointRollback,
               enterManagement, leaveManagement, managed)
    }

    /** At import time every name is bound to its real function. */
    constructor ()
      ensures Current() == Originals
    {
      commit, rollback := Real, Real;
      savepointCommit, savepointRollback := Real, Real;
      enterManagement, leaveManagement, managed := Real, Real, Real;
    }

    /** `disable_transaction_methods`: all seven names become `nop`. */
    method Disable()
      modifies this
      ensures Current() == Disabled
    {
      commit := Nop;
      rollback := Nop;
      savepointCommit := Nop;
      savepointRollback := Nop;
      enterManagement := Nop;
      leaveManagement := Nop;
      managed := Nop;
    }

    /** `restore_transaction_methods`: all seven names go back to the saved
        originals, whatever they were bound to before. */
    method Restore()
      modifies this
      ensures Current() == Originals
    {
      commit := Real;
      rollback := Real;
      savepointCommit := Real;
      savepointRollback := Real;
      enterManagement := Real;
      leaveManagement := Real;
      managed := Real;
    }
  }

  /** A call of one of the two switch functions. */
  datatype SwitchCall = DisableCall | RestoreCall

  /** The bindings after a sequence of switch calls, starting from `b`;
      each call does what `Facade.Disable` or `Facade.Restore` does. */
  function AfterSwitches(b: Bindings, calls: seq<SwitchCall>): Bindings
    decreases calls
  {
    if calls == [] then b
    else AfterSwitches(if calls[0] == DisableCall then Disabled else Originals, calls[1..])
  }

  /** Neither switch looks at the bindings it replaces: the last call alone
      decides the outcome. */
  lemma {:induction false} LastSwitchDecides(b: Bindings, calls: seq<SwitchCall>)
    requires calls != []
    ensures AfterSwitches(b, calls) ==
      (if calls[|calls| - 1] == DisableCall then Disabled else Originals)
    decreases calls
  {
    var next := if calls[0] == DisableCall then Disabled else Originals;
    if |calls| > 1 {
      LastSwitchDecides(next, calls[1..]);
    }
  }

  function Repeat(c: SwitchCall, n: nat): (r: seq<SwitchCall>)
    ensures |r| == n && forall i :: 0 <= i < n ==> r[i] == c
  {
    if n == 0 then [] else [c] + Repeat(c, n - 1)
  }

  /** Any number of disables followed by one restore gives back every real
      function: the restore is unconditional. */
  lemma DisablesThenRestore(b: Bindings, n: nat)
    ensures AfterSwitches(b, Repeat(DisableCall, n) + [RestoreCall]) == Originals
  {
    LastSwitchDecides(b, Repeat(DisableCall, n) + [RestoreCall]);
  }

  /** Both switches are idempotent. */
  lemma SwitchesIdempotent(b: Bindings, c: SwitchCall)
    ensures AfterSwitches(b, [c, c]) == AfterSwitches(b, [c])
  {
    LastSwitchDecides(b, [c, c]);
    LastSwitchDecides(b, [c]);
  }

  /** Disabling and then restoring gives back the bindings that were in
      force before, provided those were the originals; restoring without a
      prior disable leaves the originals in place. */
  lemma DisableRestoreRoundTrip()
    ensures AfterSwitches(Originals, [DisableCall, RestoreCall]) == Originals
    ensures AfterSwitches(Originals, [RestoreCall]) == Originals
  {
    LastSwitchDecides(Originals, [DisableCall, RestoreCall]);
    LastSwitchDecides(Originals, [RestoreCall]);
  }
}
