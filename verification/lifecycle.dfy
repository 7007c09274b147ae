/** The test lifecycle of `TransactionTestCase` and `TestCase`: the fixture
    setup and teardown of each isolation strategy, `_pre_setup`,
    `_post_teardown` and the `__call__` wrapper around the unittest run,
    acting on the process-wide state the harness shares between tests. */
module Lifecycle {
  import opened Values
  import opened TransactionFacade
  import opened IsolationPlans

  /** A message in `mail.outbox`. */
  datatype EmailMessage = EmailMessage(subject: string, recipients: seq<string>)

  /** What the unittest result sink records. */
  datatype Report =
    | Started
    | Succeeded
    | Failed(exc: BaseException)
    | Errored(exc: BaseException)
    | Stopped

  /** The process-wide state a test acts on: the effects on the databases
      so far, the mail outbox, and the transaction bindings in force. */
  datatype World = World(log: seq<Event>, outbox: seq<EmailMessage>, bindings: Bindings)

  /** A phase's effect on the state, and the exception it raised. */
  datatype Outcome = Outcome(world: World, raised: Option<BaseException>)

  /** What the wrapped unittest run does, which the harness does not look
      into: the transaction calls the test makes, the mail it sends, what it
      reports to the result, and the exception, if any, that escapes it. */
  datatype TestRun = TestRun(
    transactions: seq<(TxOp, Alias)>,
    sent: seq<EmailMessage>,
    reports: seq<Report>,
    escape: Option<BaseException>)

  /** The two `except` clauses around each phase of `__call__`: what they
      add to the result, and what escapes them. */
  datatype Handling = Handling(reports: seq<Report>, escaped: Option<BaseException>)

  // ---------------------------------------------------------------------
  // The lifecycle as functions of the state

  /** `_fixture_setup`: its calls land in the log, and the switch it
      reaches, if any, rebinds the transaction functions. */
  function FixtureSetupSpec(t: TestUnit, conns: seq<Connection>, faults: map<nat, BaseException>, w: World): Outcome {
    var r := Run(SetupPlan(t, conns, w.bindings), |w.log|, faults);
    Outcome(w.(log := w.log + r.done, bindings := BindingsAfterSetup(r.done, w.bindings)), r.raised)
  }

  /** `_pre_setup` as its docstring describes it: the fixture setup, then
      the outbox is emptied, which is only reached when the setup returned. */
  function PreSetupSpec(t: TestUnit, conns: seq<Connection>, faults: map<nat, BaseException>, w: World): Outcome {
    var f := FixtureSetupSpec(t, conns, faults, w);
    if f.raised.None? then f.(world := f.world.(outbox := [])) else f
  }

  /** What the assignment to `mail.outbox` raises: `mail` is not one of the
      names django/test/testcases.py imports. */
  const MailUnbound: BaseException := Exception("NameError", "global name 'mail' is not defined")

  /** `_pre_setup` as written: a fixture setup that returns is followed by
      the `NameError` of the unbound name `mail`, and the outbox is left as
      it was. */
  function PreSetupAsWritten(t: TestUnit, conns: seq<Connection>, faults: map<nat, BaseException>, w: World): Outcome {
    var f := FixtureSetupSpec(t, conns, faults, w);
    if f.raised.None? then f.(raised := Some(MailUnbound)) else f
  }

  /** The wrapped unittest run: its transaction calls go through the
      bindings in force, and only those bound to the real functions reach
      the databases. */
  function BodySpec(run: TestRun, w: World): World {
    w.(log := w.log + [RunTest] + Reaching(run.transactions, w.bindings), outbox := w.outbox + run.sent)
  }

  /** `_post_teardown`: the fixture teardown. */
  function PostTeardownSpec(t: TestUnit, conns: seq<Connection>, faults: map<nat, BaseException>, w: World): Outcome {
    var r := Run(TeardownPlan(t, conns), |w.log|, faults);
    Outcome(w.(log := w.log + r.done, bindings := BindingsAfterTeardown(r.done, w.bindings)), r.raised)
  }

  /** `KeyboardInterrupt` and `SystemExit` are re-raised; any other
      `Exception` is recorded once, as an error, and swallowed; what derives
      from `BaseException` alone matches neither clause and escapes. */
  function Handled(raised: Option<BaseException>): (h: Handling)
    ensures |h.reports| <= 1
    ensures h.reports != [] <==> raised.Some? && raised.value.Exception?
    ensures h.reports != [] ==> h.reports[0] == Errored(raised.value)
    ensures h.escaped.Some? <==> raised.Some? && !raised.value.Exception?
    ensures h.escaped.Some? ==> h.escaped == raised
  {
    match raised
    case None => Handling([], None)
    case Some(e) =>
      if e.KeyboardInterrupt? || e.SystemExit? then Handling([], raised)
      else if e.Exception? then Handling([Errored(e)], None)
      else Handling([], raised)
  }

  /** What one `__call__` does to the state: the final state, the reports
      it adds to the result (the run's own, then the harness's), and the
      exception that escapes it. */
  datatype CallOutcome = CallOutcome(world: World, reports: seq<Report>, escaped: Option<BaseException>)

  /** `TransactionTestCase.__call__` once `_pre_setup` has given `setup`:
      a setup exception skips both the run and the teardown, an exception
      escaping the run skips the teardown. */
  function CallAfter(setup: Outcome, t: TestUnit, conns: seq<Connection>, faults: map<nat, BaseException>,
                     run: TestRun): CallOutcome
  {
    if setup.raised.Some? then
      var h := Handled(setup.raised);
      CallOutcome(setup.world, h.reports, h.escaped)
    else
      var ran := BodySpec(run, setup.world);
      if run.escape.Some? then CallOutcome(ran, run.reports, run.escape)
      else
        var down := PostTeardownSpec(t, conns, faults, ran);
        var h := Handled(down.raised);
        CallOutcome(down.world, run.reports + h.reports, h.escaped)
  }

  /** `TransactionTestCase.__call__` with `_pre_setup` as described. */
  function CallSpec(t: TestUnit, conns: seq<Connection>, faults: map<nat, BaseException>,
                    run: TestRun, w: World): CallOutcome
  {
    CallAfter(PreSetupSpec(t, conns, faults, w), t, conns, faults, run)
  }

  /** `TransactionTestCase.__call__` with `_pre_setup` as written. */
  function CallAsWritten(t: TestUnit, conns: seq<Connection>, faults: map<nat, BaseException>,
                         run: TestRun, w: World): CallOutcome
  {
    CallAfter(PreSetupAsWritten(t, conns, faults, w), t, conns, faults, run)
  }

  // ---------------------------------------------------------------------
  // What the lifecycle guarantees

  /** The outbox is empty when the test body starts, whatever earlier tests
      left in it; a failed setup leaves it as it was. */
  lemma PreSetupEmptiesOutbox(t: TestUnit, conns: seq<Connection>, faults: map<nat, BaseException>, w: World)
    ensures var s := PreSetupSpec(t, conns, faults, w);
      (s.raised.None? ==> s.world.outbox == []) && (s.raised.Some? ==> s.world.outbox == w.outbox)
  {
  }

  /** A setup that raises an `Exception` is recorded exactly once, as an
      error; nothing escapes; neither the test body nor the teardown runs. */
  lemma SetupErrorSkipsBodyAndTeardown(t: TestUnit, conns: seq<Connection>, faults: map<nat, BaseException>,
                                       run: TestRun, w: World)
    requires var s := PreSetupSpec(t, conns, faults, w); s.raised.Some? && s.raised.value.Exception?
    ensures var s := PreSetupSpec(t, conns, faults, w);
      var c := CallSpec(t, conns, faults, run, w);
      && c.reports == [Errored(s.raised.value)]
      && c.escaped.None?
      && c.world == s.world
      && RunTest !in c.world.log[|w.log|..]
  {
    var s := PreSetupSpec(t, conns, faults, w);
    var r := Run(SetupPlan(t, conns, w.bindings), |w.log|, faults);
    PlansKeepToTheirPhase(t, conns, w.bindings);
    assert s.world.log[|w.log|..] == r.done;
    forall k | 0 <= k < |r.done|
      ensures r.done[k] != RunTest
    {
      assert r.done[k] == SetupPlan(t, conns, w.bindings)[k];
    }
  }

  /** An interrupt raised by the setup or the teardown is never recorded
      and always escapes. */
  lemma InterruptsPropagate(t: TestUnit, conns: seq<Connection>, faults: map<nat, BaseException>,
                            run: TestRun, w: World)
    ensures var s := PreSetupSpec(t, conns, faults, w);
      var c := CallSpec(t, conns, faults, run, w);
      s.raised.Some? && (s.raised.value.KeyboardInterrupt? || s.raised.value.SystemExit?) ==>
        c.reports == [] && c.escaped == s.raised
    ensures var s := PreSetupSpec(t, conns, faults, w);
      var d := PostTeardownSpec(t, conns, faults, BodySpec(run, s.world));
      var c := CallSpec(t, conns, faults, run, w);
      s.raised.None? && run.escape.None? && d.raised.Some?
        && (d.raised.value.KeyboardInterrupt? || d.raised.value.SystemExit?) ==>
        c.reports == run.reports && c.escaped == d.raised
  {
  }

  /** With a setup that returns and a run nothing escapes, the body runs
      after the setup and before the teardown; a teardown `Exception` is
      recorded once after the run's own reports, and not re-raised. */
  lemma BodyRunsBetweenSetupAndTeardown(t: TestUnit, conns: seq<Connection>, faults: map<nat, BaseException>,
                                        run: TestRun, w: World)
    requires PreSetupSpec(t, conns, faults, w).raised.None? && run.escape.None?
    ensures var s := Run(SetupPlan(t, conns, w.bindings), |w.log|, faults);
      var ran := BodySpec(run, PreSetupSpec(t, conns, faults, w).world);
      var d := Run(TeardownPlan(t, conns), |ran.log|, faults);
      var c := CallSpec(t, conns, faults, run, w);
      && s.done == SetupPlan(t, conns, w.bindings)
      && c.world.log == w.log + s.done + [RunTest] + Reaching(run.transactions, ran.bindings) + d.done
      && (d.raised.Some? && d.raised.value.Exception? ==>
            c.reports == run.reports + [Errored(d.raised.value)] && c.escaped.None?)
      && (d.raised.None? ==> d.done == TeardownPlan(t, conns) && c.reports == run.reports && c.escaped.None?)
  {
  }

  /** The mail the test finds in the outbox at the end is exactly the mail
      its own run sent. */
  lemma OutboxHoldsOnlyTheTestsMail(t: TestUnit, conns: seq<Connection>, faults: map<nat, BaseException>,
                                    run: TestRun, w: World)
    requires PreSetupSpec(t, conns, faults, w).raised.None?
    ensures CallSpec(t, conns, faults, run, w).world.outbox == run.sent
  {
  }

  /** Rollback strategy: once its setup returns, no call the test makes
      through the seven rebound names (`commit`, `rollback`, the two
      savepoint functions, the two management functions and `managed`)
      reaches a database, and if nothing escapes the run, the real functions
      are bound again at the end, whatever the teardown raised. */
  lemma TestCaseIsolatesBody(t: TestUnit, conns: seq<Connection>, faults: map<nat, BaseException>,
                             run: TestRun, w: World)
    requires t.kind == TestCase && SupportsTransactions(conns)
    requires PreSetupSpec(t, conns, faults, w).raised.None?
    ensures var s := PreSetupSpec(t, conns, faults, w);
      BodySpec(run, s.world).log == s.world.log + [RunTest]
    ensures run.escape.None? ==> CallSpec(t, conns, faults, run, w).world.bindings == Originals
  {
    var s := PreSetupSpec(t, conns, faults, w);
    RollbackSetupIsolatesBody(t, conns, w.bindings, |w.log|, faults, run.transactions);
    var ran := BodySpec(run, s.world);
    TeardownRestores(t, conns, ran.bindings, |ran.log|, faults);
  }

  /** Flush strategy: starting from the real bindings, every transaction
      call the test makes reaches its database, in order, and the bindings
      are never switched. */
  lemma TransactionTestCaseBodyReachesDatabase(t: TestUnit, conns: seq<Connection>,
                                               faults: map<nat, BaseException>, run: TestRun, w: World)
    requires t.kind == TransactionTestCase && w.bindings == Originals
    requires PreSetupSpec(t, conns, faults, w).raised.None?
    ensures var s := PreSetupSpec(t, conns, faults, w);
      var added := BodySpec(run, s.world).log[|s.world.log| + 1..];
      && |added| == |run.transactions|
      && (forall i :: 0 <= i < |added| ==> added[i] == Transaction(run.transactions[i].0, run.transactions[i].1))
    ensures CallSpec(t, conns, faults, run, w).world.bindings == Originals
  {
    FlushSetupKeepsBindings(t, conns, w.bindings, |w.log|, faults);
    ReachingAllReal(run.transactions);
    var s := PreSetupSpec(t, conns, faults, w);
    assert BodySpec(run, s.world).log[|s.world.log| + 1..] == Reaching(run.transactions, Originals);
  }

  /** As written, a rollback-strategy setup that raises while clearing the
      cache or loading fixtures is reported, the teardown is skipped, and
      the bindings stay switched to `nop` after `__call__` returns: the
      transaction calls of whatever test runs next do not reach the
      databases, and the next rollback-strategy setup opens no transaction. */
  lemma FailedSetupLeavesSwitchOff(t: TestUnit, conns: seq<Connection>, faults: map<nat, BaseException>,
                                   run: TestRun, w: World, next: seq<(TxOp, Alias)>, ts: seq<Alias>,
                                   fixtures: Option<seq<string>>)
    requires t.kind == TestCase && SupportsTransactions(conns)
    requires var r := Run(SetupPlan(t, conns, w.bindings), |w.log|, faults);
      r.raised.Some? && r.raised.value.Exception?
      && (r.done[|r.done| - 1].ClearSiteCache? || r.done[|r.done| - 1].LoadData?)
    ensures var c := CallSpec(t, conns, faults, run, w);
      && c.escaped.None?
      && c.world.bindings == Disabled
      && Reaching(next, c.world.bindings) == []
      && RollbackSetupPlan(ts, fixtures, c.world.bindings)
           == [DisableTransactions, ClearSiteCache] + PerTarget(ts, LoadInTransactionStep(fixtures))
  {
    var r := Run(SetupPlan(t, conns, w.bindings), |w.log|, faults);
    LateSetupFaultLeavesDisabled(t, conns, w.bindings, |w.log|, faults);
    var setup := PreSetupSpec(t, conns, faults, w);
    assert setup.raised == r.raised && setup.world.bindings == Disabled;
    assert CallSpec(t, conns, faults, run, w) == CallOutcome(setup.world, [Errored(r.raised.value)], None);
    ReachingDisabled(next);
    RollbackSetupWhenDisabled(ts, fixtures);
  }

  /** As written, `_pre_setup` never returns normally: either the fixture
      setup raises or the assignment to `mail.outbox` does.  `__call__` then
      never runs a test body or the teardown and never empties the outbox; a
      fixture setup that returned is reported once, as that `NameError`, and
      nothing escapes; and under the rollback strategy the transaction
      functions stay bound to `nop` afterwards. */
  lemma MissingMailImportFailsEveryTest(t: TestUnit, conns: seq<Connection>, faults: map<nat, BaseException>,
                                        run: TestRun, w: World)
    ensures PreSetupAsWritten(t, conns, faults, w).raised.Some?
    ensures var c := CallAsWritten(t, conns, faults, run, w);
      && |w.log| <= |c.world.log|
      && RunTest !in c.world.log[|w.log|..]
      && c.world.outbox == w.outbox
    ensures var f := FixtureSetupSpec(t, conns, faults, w);
      var c := CallAsWritten(t, conns, faults, run, w);
      f.raised.None? ==> c.reports == [Errored(MailUnbound)] && c.escaped.None? && c.world == f.world
    ensures t.kind == TestCase && SupportsTransactions(conns) && FixtureSetupSpec(t, conns, faults, w).raised.None? ==>
      CallAsWritten(t, conns, faults, run, w).world.bindings == Disabled
  {
    var r := Run(SetupPlan(t, conns, w.bindings), |w.log|, faults);
    var c := CallAsWritten(t, conns, faults, run, w);
    PlansKeepToTheirPhase(t, conns, w.bindings);
    assert c.world.log[|w.log|..] == r.done;
    forall k | 0 <= k < |r.done|
      ensures r.done[k] != RunTest
    {
      assert r.done[k] == SetupPlan(t, conns, w.bindings)[k];
    }
    if t.kind == TestCase && SupportsTransactions(conns) && r.raised.None? {
      RollbackSetupIsolatesBody(t, conns, w.bindings, |w.log|, faults, []);
    }
  }

  /** One test that passes under the described `_pre_setup` and is reported
      as an error under the written one: a flush-strategy test on the
      default database with no fixtures and no faults. */
  lemma MissingMailImportExample()
    ensures var t := TestUnit(TransactionTestCase, false, None);
      var conns := [Connection(DefaultAlias, true)];
      var run := TestRun([], [], [Succeeded], None);
      var w := World([], [], Originals);
      && CallSpec(t, conns, map[], run, w).reports == [Succeeded]
      && CallAsWritten(t, conns, map[], run, w).reports == [Errored(MailUnbound)]
  {
  }

  // ---------------------------------------------------------------------
  // The imperative model

  /** The unittest result object. */
  class TestResult {
    var reports: seq<Report>

    constructor ()
      ensures reports == []
    {
      reports := [];
    }

    /** `result.addError(test, exc_info)`. */
    method AddError(e: BaseException)
      modifies this
      ensures reports == old(reports) + [Errored(e)]
    {
      reports := reports + [Errored(e)];
    }
  }

  /** The process the tests run in: the connection registry, the
      `transaction` module's bindings, the mail outbox, and the databases,
      seen through the log of the calls that reached them.  Which
      collaborator call raises is given by `faults`, keyed by the position
      in the log at which the call lands. */
  class Process {
    const facade: Facade
    const connections: seq<Connection>
    const faults: map<nat, BaseException>
    var log: seq<Event>
    var outbox: seq<EmailMessage>

    constructor (connections: seq<Connection>, faults: map<nat, BaseException>)
      ensures this.connections == connections && this.faults == faults
      ensures log == [] && outbox == []
      ensures fresh(facade) && facade.Current() == Originals
    {
      this.connections := connections;
      this.faults := faults;
      facade := new Facade();
      log := [];
      outbox := [];
    }

    function Snapshot(): World
      reads this, facade
    {
      World(log, outbox, facade.Current())
    }

    /** A call into a collaborator (`call_command`, a real transaction
        function, the site cache, `connection.close()`): it lands in the
        log, and raises what the fault oracle has for its position. */
    method Collaborate(e: Event) returns (raised: Option<BaseException>)
      requires Faultable(e)
      modifies this`log
      ensures log == old(log) + [e] && raised == FaultAt(faults, |old(log)|)
    {
      raised := FaultAt(faults, |log|);
      log := log + [e];
    }

    /** A step that cannot raise, logged as a marker. */
    method Mark(e: Event)
      requires !Faultable(e)
      modifies this`log
      ensures log == old(log) + [e]
    {
      log := log + [e];
    }

    /** `transaction.<op>(using=db)`: the call goes through the module
        attribute, so it reaches the database only when that name is bound
        to the real function; `nop` does nothing and cannot raise. */
    method Transact(op: TxOp, db: Alias) returns (raised: Option<BaseException>)
      modifies this`log
      ensures log == old(log) + CallIfReal(facade.Current(), op, db)
      ensures raised == if facade.Current().For(op) == Real then FaultAt(faults, |old(log)|) else None
    {
      if facade.Current().For(op) == Real {
        raised := Collaborate(Transaction(op, db));
      } else {
        raised := None;
      }
    }

    /** The first `k` calls of `plan` have been made since the log read
        `start`, and none of them raised. */
    ghost predicate Issued(plan: seq<Event>, start: seq<Event>, k: nat)
      reads this
    {
      k <= |plan| && log == start + plan[..k] && Quiet(plan[..k], |start|, faults)
    }

    /** The call at position `k` of `plan`, a collaborator call. */
    method Step(e: Event, ghost plan: seq<Event>, ghost start: seq<Event>, ghost k: nat)
      returns (raised: Option<BaseException>)
      requires Faultable(e) && k < |plan| && plan[k] == e && Issued(plan, start, k)
      modifies this`log
      ensures log == start + plan[..k + 1]
      ensures raised.None? ==> Issued(plan, start, k + 1)
      ensures raised.Some? ==> Run(plan, |start|, faults) == Trace(plan[..k + 1], raised)
    {
      Advance(plan, |start|, faults, k);
      raised := Collaborate(e);
    }

    /** A transaction call made when `k` calls of `plan` are done: it is the
        next call of the plan when the real function is bound, and no call
        at all otherwise. */
    method TransactStep(op: TxOp, db: Alias, ghost plan: seq<Event>, ghost start: seq<Event>, ghost k: nat)
      returns (raised: Option<BaseException>, ghost next: nat)
      requires Issued(plan, start, k)
      requires facade.Current().For(op) == Real ==> k < |plan| && plan[k] == Transaction(op, db)
      modifies this`log
      ensures next == k + (if facade.Current().For(op) == Real then 1 else 0) && next <= |plan|
      ensures log == start + plan[..next]
      ensures raised.None? ==> Issued(plan, start, next)
      ensures raised.Some? ==> Run(plan, |start|, faults) == Trace(plan[..next], raised)
    {
      if facade.Current().For(op) == Real {
        Advance(plan, |start|, faults, k);
        next := k + 1;
      } else {
        next := k;
      }
      raised := Transact(op, db);
    }

    /** The loop of `TransactionTestCase._fixture_setup` over the target
        databases: flush each, then load the fixtures into it. */
    method FlushEach(ts: seq<Alias>, fixtures: Option<seq<string>>, ghost plan: seq<Event>)
      returns (raised: Option<BaseException>)
      requires FlushLayout(plan, ts, fixtures)
      modifies this`log
      ensures var r := Run(plan, |old(log)|, faults);
        log == old(log) + r.done && raised == r.raised
    {
      ghost var start := log;
      ghost var k := 0;
      var i := 0;
      while i < |ts|
        invariant i <= |ts| && k == (if fixtures.Some? then 2 * i else i)
        invariant Issued(plan, start, k)
      {
        raised := Step(Flush(ts[i]), plan, start, k);
        k := k + 1;
        if raised.Some? {
          return;
        }
        if fixtures.Some? {
          raised := Step(LoadData(fixtures.value, ts[i], true), plan, start, k);
          k := k + 1;
          if raised.Some? {
            return;
          }
        }
        i := i + 1;
      }
      assert plan[..k] == plan;
      RunQuiet(plan, |start|, faults);
      raised := None;
    }

    /** `TransactionTestCase._fixture_setup`: flush and load every target
        database, `connections` under `multi_db`, else the default one. */
    method FlushFixtureSetup(t: TestUnit) returns (raised: Option<BaseException>)
      modifies this`log
      ensures var r := Run(FlushSetupPlan(Targets(t.multiDb, connections), t.fixtures), |old(log)|, faults);
        log == old(log) + r.done && raised == r.raised
    {
      var ts := Targets(t.multiDb, connections);
      FlushSetupLayout(ts, t.fixtures);
      raised := FlushEach(ts, t.fixtures, FlushSetupPlan(ts, t.fixtures));
    }

    /** The first loop of `TestCase._fixture_setup`: on every target,
        `enter_transaction_management` then `managed(True)`, each reaching
        the database only while bound to the real function. */
    method EnterManagementEach(ts: seq<Alias>, ghost b: Bindings, ghost plan: seq<Event>, ghost start: seq<Event>)
      returns (raised: Option<BaseException>, ghost k: nat)
      requires facade.Current() == b && ManageLayout(plan, ts, b) && Issued(plan, start, 0)
      modifies this`log
      ensures k <= ManageWidth(b) * |ts| && k <= |plan|
      ensures raised.None? ==> k == ManageWidth(b) * |ts| && Issued(plan, start, k)
      ensures raised.Some? ==> log == start + plan[..k] && Run(plan, |start|, faults) == Trace(plan[..k], raised)
    {
      var width := ManageWidth(b);
      k := 0;
      var i := 0;
      while i < |ts|
        invariant i <= |ts| && k == width * i
        invariant Issued(plan, start, k)
      {
        assert width * (i + 1) == width + width * i;
        assert width * (i + 1) <= width * |ts|;
        assert ManagedAt(plan, ts, b, i);
        raised, k := TransactStep(EnterManagement, ts[i], plan, start, k);
        if raised.Some? {
          return;
        }
        raised, k := TransactStep(SetManaged(true), ts[i], plan, start, k);
        if raised.Some? {
          return;
        }
        i := i + 1;
      }
      raised := None;
    }

    /** The last loop of `TestCase._fixture_setup`: load the fixtures into
        every target with `commit=False`. */
    method LoadEach(ts: seq<Alias>, fixtures: Option<seq<string>>, ghost plan: seq<Event>, ghost start: seq<Event>, ghost k0: nat)
      returns (raised: Option<BaseException>, ghost k: nat)
      requires LoadLayout(plan, k0, ts, fixtures) && Issued(plan, start, k0)
      modifies this`log
      ensures k0 <= k <= |plan|
      ensures raised.None? ==> k == k0 + (if fixtures.Some? then |ts| else 0) && Issued(plan, start, k)
      ensures raised.Some? ==> log == start + plan[..k] && Run(plan, |start|, faults) == Trace(plan[..k], raised)
    {
      k := k0;
      raised := None;
      if fixtures.None? {
        return;
      }
      var i := 0;
      while i < |ts|
        invariant i <= |ts| && k == k0 + i
        invariant Issued(plan, start, k)
      {
        raised := Step(LoadData(fixtures.value, ts[i], false), plan, start, k);
        k := k + 1;
        if raised.Some? {
          return;
        }
        i := i + 1;
      }
      raised := None;
    }

    /** `TestCase._fixture_setup` once every database supports
        transactions: open a managed transaction on every target, switch the
        transaction functions to `nop`, clear the site cache and load the
        fixtures without committing. `n` is the number of management calls
        that reach a database under the bindings `b`. */
    method TransactionalSetup(ts: seq<Alias>, fixtures: Option<seq<string>>, ghost b: Bindings,
                              ghost plan: seq<Event>, ghost n: nat)
      returns (raised: Option<BaseException>)
      requires facade.Current() == b
      requires n == ManageWidth(b) * |ts| && ManageLayout(plan, ts, b)
      requires forall j :: 0 <= j < n ==> plan[j].Transaction?
      requires |plan| == n + 2 + (if fixtures.Some? then |ts| else 0)
      requires plan[n] == DisableTransactions && plan[n + 1] == ClearSiteCache
      requires LoadLayout(plan, n + 2, ts, fixtures)
      modifies this`log, facade
      ensures var r := Run(plan, |old(log)|, faults);
        && log == old(log) + r.done && raised == r.raised
        && facade.Current() == BindingsAfterSetup(r.done, b)
    {
      ghost var start := log;
      assert plan[..0] == [];
      ghost var k;
      raised, k := EnterManagementEach(ts, b, plan, start);
      if raised.Some? {
        assert DisableTransactions !in plan[..k];
        return;
      }
      facade.Disable();
      Advance(plan, |start|, faults, k);
      Mark(DisableTransactions);
      k := k + 1;
      raised := Step(ClearSiteCache, plan, start, k);
      k := k + 1;
      assert plan[..k][n] == DisableTransactions;
      if raised.Some? {
        return;
      }
      raised, k := LoadEach(ts, fixtures, plan, start, k);
      assert plan[..k][n] == DisableTransactions;
      if raised.None? {
        assert plan[..k] == plan;
        RunQuiet(plan, |start|, faults);
      }
    }

    /** `TestCase._fixture_setup`: without transaction support everywhere,
        the flush strategy; otherwise the transactional one. */
    method RollbackFixtureSetup(t: TestUnit) returns (raised: Option<BaseException>)
      requires t.kind == TestCase
      modifies this`log, facade
      ensures var b := old(facade.Current());
        var r := Run(SetupPlan(t, connections, b), |old(log)|, faults);
        && log == old(log) + r.done && raised == r.raised
        && facade.Current() == BindingsAfterSetup(r.done, b)
    {
      ghost var b := facade.Current();
      if !SupportsTransactions(connections) {
        raised := FlushFixtureSetup(t);
        FlushSetupKeepsBindings(t, connections, b, |old(log)|, faults);
        return;
      }
      var ts := Targets(t.multiDb, connections);
      RollbackSetupLayout(ts, t.fixtures, b);
      raised := TransactionalSetup(ts, t.fixtures, b, RollbackSetupPlan(ts, t.fixtures, b), ManageWidth(b) * |ts|);
    }

    /** `_fixture_setup`, dispatched on the class of the test. */
    method FixtureSetup(t: TestUnit) returns (raised: Option<BaseException>)
      modifies this`log, facade
      ensures var b := old(facade.Current());
        var r := Run(SetupPlan(t, connections, b), |old(log)|, faults);
        && log == old(log) + r.done && raised == r.raised
        && facade.Current() == BindingsAfterSetup(r.done, b)
    {
      if t.kind == TransactionTestCase {
        ghost var b := facade.Current();
        raised := FlushFixtureSetup(t);
        FlushSetupKeepsBindings(t, connections, b, |old(log)|, faults);
      } else {
        raised := RollbackFixtureSetup(t);
      }
    }

    /** `TransactionTestCase._fixture_teardown`: nothing to undo, the next
        test's flush cleans up. */
    method FlushFixtureTeardown(t: TestUnit) returns (raised: Option<BaseException>)
      ensures raised == None
    {
      raised := None;
    }

    /** The loop of `TestCase._fixture_teardown` over the targets:
        `rollback` then `leave_transaction_management`, with the real
        functions bound again. */
    method RollbackEach(ts: seq<Alias>, ghost plan: seq<Event>, ghost start: seq<Event>, ghost k0: nat)
      returns (raised: Option<BaseException>, ghost k: nat)
      requires facade.Current() == Originals
      requires RollbackLayout(plan, k0, ts) && Issued(plan, start, k0)
      modifies this`log
      ensures k0 <= k <= |plan|
      ensures raised.None? ==> k == k0 + 2 * |ts| && Issued(plan, start, k)
      ensures raised.Some? ==> log == start + plan[..k] && Run(plan, |start|, faults) == Trace(plan[..k], raised)
    {
      assert Originals.For(Rollback) == Real && Disabled.For(Rollback) == Nop;
      assert Originals.For(LeaveManagement) == Real && Disabled.For(LeaveManagement) == Nop;
      k := k0;
      var i := 0;
      while i < |ts|
        invariant i <= |ts| && k == k0 + 2 * i
        invariant Issued(plan, start, k)
      {
        raised, k := TransactStep(Rollback, ts[i], plan, start, k);
        if raised.Some? {
          return;
        }
        raised, k := TransactStep(LeaveManagement, ts[i], plan, start, k);
        if raised.Some? {
          return;
        }
        i := i + 1;
      }
      raised := None;
    }

    /** The loop of `TestCase._fixture_teardown` that closes every
        configured connection, targets or not. */
    method CloseEach(aliases: seq<Alias>, ghost plan: seq<Event>, ghost start: seq<Event>, ghost k0: nat)
      returns (raised: Option<BaseException>, ghost k: nat)
      requires CloseLayout(plan, k0, aliases) && Issued(plan, start, k0)
      modifies this`log
      ensures k0 <= k <= |plan|
      ensures raised.None? ==> k == k0 + |aliases| && Issued(plan, start, k)
      ensures raised.Some? ==> log == start + plan[..k] && Run(plan, |start|, faults) == Trace(plan[..k], raised)
    {
      k := k0;
      var j := 0;
      while j < |aliases|
        invariant j <= |aliases| && k == k0 + j
        invariant Issued(plan, start, k)
      {
        raised := Step(Close(aliases[j]), plan, start, k);
        k := k + 1;
        if raised.Some? {
          return;
        }
        j := j + 1;
      }
      raised := None;
    }

    /** `TestCase._fixture_teardown` once every database supports
        transactions: switch the real functions back, roll back and leave
        management on every target, and close every configured connection. */
    method TransactionalTeardown(ts: seq<Alias>, aliases: seq<Alias>, ghost plan: seq<Event>)
      returns (raised: Option<BaseException>)
      requires |plan| == 1 + 2 * |ts| + |aliases| && plan[0] == RestoreTransactions
      requires RollbackLayout(plan, 1, ts) && CloseLayout(plan, 1 + 2 * |ts|, aliases)
      modifies this`log, facade
      ensures var r := Run(plan, |old(log)|, faults);
        && log == old(log) + r.done && raised == r.raised
        && facade.Current() == BindingsAfterTeardown(r.done, old(facade.Current()))
    {
      ghost var start := log;
      facade.Restore();
      assert plan[..0] == [];
      Advance(plan, |start|, faults, 0);
      Mark(RestoreTransactions);
      ghost var k;
      raised, k := RollbackEach(ts, plan, start, 1);
      assert plan[..k][0] == RestoreTransactions;
      if raised.Some? {
        return;
      }
      raised, k := CloseEach(aliases, plan, start, k);
      assert plan[..k][0] == RestoreTransactions;
      if raised.None? {
        assert plan[..k] == plan;
        RunQuiet(plan, |start|, faults);
      }
    }

    /** `TestCase._fixture_teardown`: without transaction support
        everywhere, the flush strategy's; otherwise the transactional one. */
    method RollbackFixtureTeardown(t: TestUnit) returns (raised: Option<BaseException>)
      requires t.kind == TestCase
      modifies this`log, facade
      ensures var r := Run(TeardownPlan(t, connections), |old(log)|, faults);
        && log == old(log) + r.done && raised == r.raised
        && facade.Current() == BindingsAfterTeardown(r.done, old(facade.Current()))
    {
      if !SupportsTransactions(connections) {
        raised := FlushFixtureTeardown(t);
        return;
      }
      var ts := Targets(t.multiDb, connections);
      var aliases := Aliases(connections);
      RollbackTeardownOrder(ts, connections);
      assert RollbackLayout(RollbackTeardownPlan(ts, connections), 1, ts);
      assert CloseLayout(RollbackTeardownPlan(ts, connections), 1 + 2 * |ts|, aliases);
      raised := TransactionalTeardown(ts, aliases, RollbackTeardownPlan(ts, connections));
    }

    /** `_fixture_teardown`, dispatched on the class of the test. */
    method FixtureTeardown(t: TestUnit) returns (raised: Option<BaseException>)
      modifies this`log, facade
      ensures var r := Run(TeardownPlan(t, connections), |old(log)|, faults);
        && log == old(log) + r.done && raised == r.raised
        && facade.Current() == BindingsAfterTeardown(r.done, old(facade.Current()))
    {
      if t.kind == TransactionTestCase {
        raised := FlushFixtureTeardown(t);
      } else {
        raised := RollbackFixtureTeardown(t);
      }
    }

    /** `_pre_setup`. */
    method PreSetup(t: TestUnit) returns (raised: Option<BaseException>)
      modifies this, facade
      ensures Outcome(Snapshot(), raised) == PreSetupSpec(t, connections, faults, old(Snapshot()))
    {
      raised := FixtureSetup(t);
      if raised.None? {
        outbox := [];
      }
    }

    /** `_post_teardown`. */
    method PostTeardown(t: TestUnit) returns (raised: Option<BaseException>)
      modifies this, facade
      ensures Outcome(Snapshot(), raised) == PostTeardownSpec(t, connections, faults, old(Snapshot()))
    {
      raised := FixtureTeardown(t);
    }

    /** `unittest.TestCase.__call__(result)`: the test's own setUp, test
        method and tearDown, which report into `result`. */
    method RunWrapped(run: TestRun, result: TestResult) returns (escaped: Option<BaseException>)
      modifies this, result
      ensures Snapshot() == BodySpec(run, old(Snapshot()))
      ensures result.reports == old(result.reports) + run.reports && escaped == run.escape
    {
      log := log + [RunTest] + Reaching(run.transactions, facade.Current());
      outbox := outbox + run.sent;
      result.reports := result.reports + run.reports;
      escaped := run.escape;
    }

    /** The `except` clauses around a phase of `__call__`. */
    method Handle(raised: Option<BaseException>, result: TestResult) returns (escaped: Option<BaseException>)
      modifies result
      ensures result.reports == old(result.reports) + Handled(raised).reports
      ensures escaped == Handled(raised).escaped
    {
      escaped := raised;
      if raised.Some? {
        var e := raised.value;
        if e.KeyboardInterrupt? || e.SystemExit? {
          return;
        }
        if e.Exception? {
          result.AddError(e);
          escaped := None;
        }
      }
    }

    /** What `__call__` does once `_pre_setup` has returned: the wrapped run,
        then `_post_teardown` unless an exception escaped the run. */
    method RunThenTeardown(t: TestUnit, run: TestRun, result: TestResult) returns (escaped: Option<BaseException>)
      modifies this, facade, result
      ensures var c := CallAfter(Outcome(old(Snapshot()), None), t, connections, faults, run);
        && Snapshot() == c.world
        && result.reports == old(result.reports) + c.reports
        && escaped == c.escaped
    {
      ghost var start, before := Snapshot(), result.reports;
      escaped := RunWrapped(run, result);
      ghost var ran := Snapshot();
      if escaped.Some? {
        return;
      }
      var raised := PostTeardown(t);
      ghost var down := PostTeardownSpec(t, connections, faults, ran);
      assert down.raised == raised && down.world == Snapshot();
      escaped := Handle(raised, result);
      ghost var h := Handled(raised);
      assert CallAfter(Outcome(start, None), t, connections, faults, run)
          == CallOutcome(down.world, run.reports + h.reports, h.escaped);
      assert result.reports == before + (run.reports + h.reports) by {
        assert result.reports == before + run.reports + h.reports;
      }
    }

    /** `TransactionTestCase.__call__(result)`. */
    method Invoke(t: TestUnit, run: TestRun, result: TestResult) returns (escaped: Option<BaseException>)
      modifies this, facade, result
      ensures var c := CallSpec(t, connections, faults, run, old(Snapshot()));
        && Snapshot() == c.world
        && result.reports == old(result.reports) + c.reports
        && escaped == c.escaped
    {
      var raised := PreSetup(t);
      if raised.Some? {
        escaped := Handle(raised, result);
        return;
      }
      escaped := RunThenTeardown(t, run, result);
    }
  }
}
