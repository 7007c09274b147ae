/** The two isolation strategies as plans: the exact sequence of
    collaborator calls (flush, loaddata, transaction functions, cache clear,
    connection close) each setup and teardown issues, and what happens to
    that sequence when one of the calls raises. */
module IsolationPlans {
  import opened Values
  import opened TransactionFacade

  /** A database alias, a key of the connection registry. */
  type Alias = string

  const DefaultAlias: Alias := "default"

  /** A configured connection and its `SUPPORTS_TRANSACTIONS` setting. */
  datatype Connection = Connection(alias: Alias, supportsTransactions: bool)

  /** What a call can raise.  `KeyboardInterrupt`, `SystemExit` and
      `GeneratorExit` derive directly from `BaseException`; everything else
      is an `Exception`. */
  datatype BaseException =
    | KeyboardInterrupt
    | SystemExit
    | GeneratorExit
    | Exception(cls: string, message: string)

  /** An observable effect on the databases and the process, in the order
      it happens.  `Transaction` is a call that reached a real transaction
      function; `DisableTransactions`, `RestoreTransactions` mark the two
      switches; `RunTest` marks the start of the wrapped unittest run. */
  datatype Event =
    | Flush(db: Alias)
    | LoadData(labels: seq<string>, db: Alias, commit: bool)
    | Transaction(op: TxOp, db: Alias)
    | DisableTransactions
    | RestoreTransactions
    | ClearSiteCache
    | Close(db: Alias)
    | RunTest

  /** Calls into collaborators, which may raise; the markers cannot. */
  predicate Faultable(e: Event) {
    !(e.DisableTransactions? || e.RestoreTransactions? || e.RunTest?)
  }

  // ---------------------------------------------------------------------
  // Connections

  /** `connections_support_transactions`: every configured connection
      supports transactions. */
  function SupportsTransactions(conns: seq<Connection>): (r: bool)
    ensures r <==> forall i :: 0 <= i < |conns| ==> conns[i].supportsTransactions
  {
    conns == [] || (conns[0].supportsTransactions && SupportsTransactions(conns[1..]))
  }

  /** One connection without transaction support is enough to rule out
      the rollback strategy, whatever the others say. */
  lemma OneUnsupportedSuffices(conns: seq<Connection>, i: nat)
    requires i < |conns| && !conns[i].supportsTransactions
    ensures !SupportsTransactions(conns)
  {
  }

  /** The aliases of the registry, in its order (iterating `connections`). */
  function Aliases(conns: seq<Connection>): (r: seq<Alias>)
    ensures |r| == |conns|
    ensures forall i :: 0 <= i < |conns| ==> r[i] == conns[i].alias
  {
    if conns == [] then [] else [conns[0].alias] + Aliases(conns[1..])
  }

  /** The databases a test's setup and teardown act on: all of them when
      `multi_db` is set, otherwise only the default alias. */
  function Targets(multiDb: bool, conns: seq<Connection>): seq<Alias> {
    if multiDb then Aliases(conns) else [DefaultAlias]
  }

  // ---------------------------------------------------------------------
  // Plans

  /** The calls a `for db in databases` loop issues, one block per database. */
  function PerTarget(ts: seq<Alias>, step: Alias -> seq<Event>): seq<Event> {
    if ts == [] then [] else step(ts[0]) + PerTarget(ts[1..], step)
  }

  lemma {:induction false} PerTargetAppend(a: seq<Alias>, b: seq<Alias>, step: Alias -> seq<Event>)
    ensures PerTarget(a + b, step) == PerTarget(a, step) + PerTarget(b, step)
  {
    if a == [] {
      assert a + b == b;
    } else {
      assert (a + b)[0] == a[0];
      assert (a + b)[1..] == a[1..] + b;
      PerTargetAppend(a[1..], b, step);
    }
  }

  /** Every event of the loop comes from the block of one of the databases. */
  lemma {:induction false} PerTargetMember(ts: seq<Alias>, step: Alias -> seq<Event>, e: Event)
    requires e in PerTarget(ts, step)
    ensures exists i :: 0 <= i < |ts| && e in step(ts[i])
  {
    if e !in step(ts[0]) {
      PerTargetMember(ts[1..], step, e);
      var i :| 0 <= i < |ts[1..]| && e in step(ts[1..][i]);
      assert e in step(ts[i + 1]);
    }
  }

  /** With blocks of a fixed length `k`, the loop issues `k` calls per
      database. */
  lemma {:induction false} PerTargetLength(ts: seq<Alias>, step: Alias -> seq<Event>, k: nat)
    requires forall db :: |step(db)| == k
    ensures |PerTarget(ts, step)| == k * |ts|
  {
    if ts != [] {
      PerTargetLength(ts[1..], step, k);
      assert k * |ts| == k + k * (|ts| - 1);
    }
  }

  /** ... and the block of `ts[i]` sits at position `k * i`. */
  lemma {:induction false} PerTargetAt(ts: seq<Alias>, step: Alias -> seq<Event>, k: nat, i: nat, j: nat)
    requires forall db :: |step(db)| == k
    requires i < |ts| && j < k
    ensures k * i + j < |PerTarget(ts, step)|
    ensures PerTarget(ts, step)[k * i + j] == step(ts[i])[j]
  {
    var head := step(ts[0]);
    assert PerTarget(ts, step) == head + PerTarget(ts[1..], step);
    if i == 0 {
      assert k * i + j == j;
    } else {
      PerTargetAt(ts[1..], step, k, i - 1, j);
      assert k * i == k + k * (i - 1);
      assert ts[1..][i - 1] == ts[i];
    }
  }

  /** `call_command('loaddata', *fixtures, database=db, commit=...)`,
      issued only when the test declares `fixtures`. */
  function LoadStep(fixtures: Option<seq<string>>, db: Alias, commit: bool): seq<Event> {
    if fixtures.Some? then [LoadData(fixtures.value, db, commit)] else []
  }

  /** A call of `op` through the current bindings: it reaches the real
      function, and so the database, only when `op` is bound to it. */
  function CallIfReal(b: Bindings, op: TxOp, db: Alias): seq<Event> {
    if b.For(op) == Real then [Transaction(op, db)] else []
  }

  /** Flush strategy, per database: flush, then load the fixtures. */
  function FlushStep(fixtures: Option<seq<string>>): Alias -> seq<Event> {
    db => [Flush(db)] + LoadStep(fixtures, db, true)
  }

  /** Rollback strategy, per database: `enter_transaction_management`,
      then `managed(True)`, both through the bindings `b`. */
  function ManageStep(b: Bindings): Alias -> seq<Event> {
    db => CallIfReal(b, EnterManagement, db) + CallIfReal(b, SetManaged(true), db)
  }

  function LoadInTransactionStep(fixtures: Option<seq<string>>): Alias -> seq<Event> {
    db => LoadStep(fixtures, db, false)
  }

  function RollbackStep(): Alias -> seq<Event> {
    db => [Transaction(Rollback, db), Transaction(LeaveManagement, db)]
  }

  function CloseStep(): Alias -> seq<Event> {
    db => [Close(db)]
  }

  /** `TransactionTestCase._fixture_setup`. */
  function FlushSetupPlan(ts: seq<Alias>, fixtures: Option<seq<string>>): seq<Event> {
    PerTarget(ts, FlushStep(fixtures))
  }

  /** `TestCase._fixture_setup` when every connection supports
      transactions, starting from the bindings `b`. */
  function RollbackSetupPlan(ts: seq<Alias>, fixtures: Option<seq<string>>, b: Bindings): seq<Event> {
    PerTarget(ts, ManageStep(b)) + [DisableTransactions, ClearSiteCache]
      + PerTarget(ts, LoadInTransactionStep(fixtures))
  }

  /** `TestCase._fixture_teardown` when every connection supports
      transactions: the rollbacks go through the just restored bindings,
      and every configured connection is closed. */
  function RollbackTeardownPlan(ts: seq<Alias>, conns: seq<Connection>): seq<Event> {
    [RestoreTransactions] + PerTarget(ts, RollbackStep()) + PerTarget(Aliases(conns), CloseStep())
  }

  /** The setup a test of kind `t.kind` issues, given the connection
      registry and the bindings in force when it starts. */
  function SetupPlan(t: TestUnit, conns: seq<Connection>, b: Bindings): seq<Event> {
    var ts := Targets(t.multiDb, conns);
    match t.kind
    case TransactionTestCase => FlushSetupPlan(ts, t.fixtures)
    case TestCase =>
      if SupportsTransactions(conns) then RollbackSetupPlan(ts, t.fixtures, b)
      else FlushSetupPlan(ts, t.fixtures)
  }

  /** The teardown a test of kind `t.kind` issues. */
  function TeardownPlan(t: TestUnit, conns: seq<Connection>): seq<Event> {
    match t.kind
    case TransactionTestCase => []
    case TestCase =>
      if SupportsTransactions(conns) then RollbackTeardownPlan(Targets(t.multiDb, conns), conns)
      else []
  }

  datatype Kind = TransactionTestCase | TestCase

  /** The attributes of a test class the harness consults. */
  datatype TestUnit = TestUnit(kind: Kind, multiDb: bool, fixtures: Option<seq<string>>)

  // ---------------------------------------------------------------------
  // Running a plan against failing collaborators

  /** The fault, if any, raised by the collaborator call that lands at
      position `k` of the event log. */
  function FaultAt(faults: map<nat, BaseException>, k: nat): Option<BaseException> {
    if k in faults then Some(faults[k]) else None
  }

  /** No call among `s`, laid out from log position `base`, raises:
      neither the last call nor any before it. Stated from the last call
      back, so that a loop over a plan extends it one call at a time
      (`Advance`); `NoFault` states the same call by call, the form `Run`
      is unfolded against (`RunNoFault`, `RunStopsAt`), and `QuietMeans`
      shows the two agree. */
  predicate Quiet(s: seq<Event>, base: nat, faults: map<nat, BaseException>)
    decreases |s|
  {
    s == [] ||
    (!(Faultable(s[|s| - 1]) && base + |s| - 1 in faults) && Quiet(s[..|s| - 1], base, faults))
  }

  /** The same, call by call. */
  predicate NoFault(s: seq<Event>, base: nat, faults: map<nat, BaseException>) {
    forall j :: 0 <= j < |s| ==> !(Faultable(s[j]) && base + j in faults)
  }

  lemma {:induction false} QuietMeans(s: seq<Event>, base: nat, faults: map<nat, BaseException>)
    ensures Quiet(s, base, faults) <==> NoFault(s, base, faults)
    decreases |s|
  {
    if s != [] {
      var init := s[..|s| - 1];
      QuietMeans(init, base, faults);
      assert forall j :: 0 <= j < |init| ==> init[j] == s[j];
    }
  }

  /** What a sequence of calls did: the calls made, and the exception that
      stopped it. */
  datatype Trace = Trace(done: seq<Event>, raised: Option<BaseException>)

  /** Issuing `plan` from log position `base`: the first call that raises
      ends it, and the exception propagates. */
  function Run(plan: seq<Event>, base: nat, faults: map<nat, BaseException>): (r: Trace)
    ensures r.done <= plan
    ensures r.raised.None? ==> r.done == plan
    ensures r.raised.Some? ==>
      && |r.done| > 0
      && Faultable(r.done[|r.done| - 1])
      && FaultAt(faults, base + |r.done| - 1) == r.raised
    decreases plan
  {
    if plan == [] then Trace([], None)
    else if Faultable(plan[0]) && base in faults then Trace([plan[0]], Some(faults[base]))
    else
      var rest := Run(plan[1..], base + 1, faults);
      assert plan == [plan[0]] + plan[1..];
      Trace([plan[0]] + rest.done, rest.raised)
  }

  /** When no call of the plan, laid out from `base`, is faulted, every
      call is made and nothing is raised. */
  lemma {:induction false} RunNoFault(plan: seq<Event>, base: nat, faults: map<nat, BaseException>)
    requires NoFault(plan, base, faults)
    ensures Run(plan, base, faults) == Trace(plan, None)
    decreases plan
  {
    if plan != [] {
      assert !(Faultable(plan[0]) && base + 0 in faults);
      assert NoFault(plan[1..], base + 1, faults) by {
        forall j | 0 <= j < |plan[1..]|
          ensures !(Faultable(plan[1..][j]) && base + 1 + j in faults)
        {
          assert plan[1..][j] == plan[j + 1];
        }
      }
      RunNoFault(plan[1..], base + 1, faults);
    }
  }

  /** If the calls before `plan[n]` do not raise and `plan[n]` does, the
      plan stops right after `plan[n]`, with its exception. */
  lemma {:induction false} RunStopsAt(plan: seq<Event>, base: nat, faults: map<nat, BaseException>, n: nat)
    requires n < |plan| && NoFault(plan[..n], base, faults)
    requires Faultable(plan[n]) && base + n in faults
    ensures Run(plan, base, faults) == Trace(plan[..n + 1], Some(faults[base + n]))
    decreases n
  {
    if n > 0 {
      assert plan[..n][0] == plan[0];
      var tail := plan[1..][..n - 1];
      assert NoFault(tail, base + 1, faults) by {
        forall j | 0 <= j < |tail|
          ensures !(Faultable(tail[j]) && base + 1 + j in faults)
        {
          assert tail[j] == plan[..n][j + 1];
        }
      }
      RunStopsAt(plan[1..], base + 1, faults, n - 1);
      assert [plan[0]] + plan[1..][..n] == plan[..n + 1];
    }
  }

  /** If no call raises, the whole plan is issued. */
  lemma RunQuiet(plan: seq<Event>, base: nat, faults: map<nat, BaseException>)
    requires Quiet(plan, base, faults)
    ensures Run(plan, base, faults) == Trace(plan, None)
  {
    QuietMeans(plan, base, faults);
    RunNoFault(plan, base, faults);
  }

  /** Issuing `plan[k]` after the first `k` calls ran without raising:
      either it raises and the plan stops right after it, with its
      exception, or the first `k + 1` calls ran without raising. */
  lemma Advance(plan: seq<Event>, base: nat, faults: map<nat, BaseException>, k: nat)
    requires k < |plan| && Quiet(plan[..k], base, faults)
    ensures plan[..k + 1] == plan[..k] + [plan[k]]
    ensures Faultable(plan[k]) && base + k in faults ==>
      Run(plan, base, faults) == Trace(plan[..k + 1], Some(faults[base + k]))
    ensures !(Faultable(plan[k]) && base + k in faults) ==> Quiet(plan[..k + 1], base, faults)
  {
    assert plan[..k + 1] == plan[..k] + [plan[k]];
    assert plan[..k + 1][..k] == plan[..k];
    if Faultable(plan[k]) && base + k in faults {
      QuietMeans(plan[..k], base, faults);
      RunStopsAt(plan, base, faults, k);
    }
  }

  // ---------------------------------------------------------------------
  // The order of the calls

  /** Flush strategy: each target database is flushed, and immediately
      afterwards its fixtures are loaded (committing), database after
      database in the order of the targets. */
  lemma FlushSetupOrder(ts: seq<Alias>, fixtures: Option<seq<string>>, i: nat)
    requires i < |ts|
    ensures var k := if fixtures.Some? then 2 else 1;
      var plan := FlushSetupPlan(ts, fixtures);
      && |plan| == k * |ts|
      && plan[k * i] == Flush(ts[i])
      && (fixtures.Some? ==> plan[k * i + 1] == LoadData(fixtures.value, ts[i], true))
  {
    var k := if fixtures.Some? then 2 else 1;
    var step := FlushStep(fixtures);
    assert forall db :: |step(db)| == k;
    PerTargetLength(ts, step, k);
    PerTargetAt(ts, step, k, i, 0);
    if fixtures.Some? {
      PerTargetAt(ts, step, k, i, 1);
    }
  }

  /** Where the flush strategy puts the calls for `ts[i]`: its flush,
      followed by its load when there are fixtures. */
  predicate FlushLayout(plan: seq<Event>, ts: seq<Alias>, fixtures: Option<seq<string>>) {
    && |plan| == (if fixtures.Some? then 2 * |ts| else |ts|)
    && forall i :: 0 <= i < |ts| ==>
         var k := if fixtures.Some? then 2 * i else i;
         plan[k] == Flush(ts[i]) && (fixtures.Some? ==> plan[k + 1] == LoadData(fixtures.value, ts[i], true))
  }

  lemma FlushSetupLayout(ts: seq<Alias>, fixtures: Option<seq<string>>)
    ensures FlushLayout(FlushSetupPlan(ts, fixtures), ts, fixtures)
  {
    var width := if fixtures.Some? then 2 else 1;
    assert forall db :: |FlushStep(fixtures)(db)| == width;
    PerTargetLength(ts, FlushStep(fixtures), width);
    forall i | 0 <= i < |ts|
      ensures var k := if fixtures.Some? then 2 * i else i;
        var plan := FlushSetupPlan(ts, fixtures);
        plan[k] == Flush(ts[i]) && (fixtures.Some? ==> plan[k + 1] == LoadData(fixtures.value, ts[i], true))
    {
      FlushSetupOrder(ts, fixtures, i);
    }
  }

  /** Flush strategy: it only flushes and loads with commit, and never
      calls a transaction function. */
  lemma FlushSetupCalls(ts: seq<Alias>, fixtures: Option<seq<string>>, e: Event)
    requires e in FlushSetupPlan(ts, fixtures)
    ensures e.Flush? || (e.LoadData? && e.commit)
    ensures e.db in ts
  {
    PerTargetMember(ts, FlushStep(fixtures), e);
  }

  /** Rollback strategy, setup, from any bindings: the management calls for
      every target come first, then the single switch to `nop`, then the
      cache clear, then the loads without commit.  The switch happens
      exactly once. */
  lemma RollbackSetupShape(ts: seq<Alias>, fixtures: Option<seq<string>>, b: Bindings)
    ensures var manage := PerTarget(ts, ManageStep(b));
      var loads := PerTarget(ts, LoadInTransactionStep(fixtures));
      && RollbackSetupPlan(ts, fixtures, b) == manage + [DisableTransactions, ClearSiteCache] + loads
      && (forall e :: e in manage ==> e.Transaction? && (e.op == EnterManagement || e.op == SetManaged(true)))
      && (forall e :: e in loads ==> e.LoadData? && !e.commit)
  {
    var manage := PerTarget(ts, ManageStep(b));
    var loads := PerTarget(ts, LoadInTransactionStep(fixtures));
    forall e | e in manage
      ensures e.Transaction? && (e.op == EnterManagement || e.op == SetManaged(true))
    {
      PerTargetMember(ts, ManageStep(b), e);
    }
    forall e | e in loads
      ensures e.LoadData? && !e.commit
    {
      PerTargetMember(ts, LoadInTransactionStep(fixtures), e);
    }
  }

  /** Rollback strategy, setup, with the real transaction functions bound:
      for each target `enter_transaction_management` then `managed(True)`;
      then the switch; then the cache clear; then each target's loaddata
      with `commit=False`. */
  lemma RollbackSetupOrder(ts: seq<Alias>, fixtures: Option<seq<string>>, i: nat)
    requires i < |ts|
    ensures var n := |ts|;
      var m := if fixtures.Some? then 1 else 0;
      var plan := RollbackSetupPlan(ts, fixtures, Originals);
      && |plan| == 2 * n + 2 + m * n
      && plan[2 * i] == Transaction(EnterManagement, ts[i])
      && plan[2 * i + 1] == Transaction(SetManaged(true), ts[i])
      && plan[2 * n] == DisableTransactions
      && plan[2 * n + 1] == ClearSiteCache
      && (fixtures.Some? ==> plan[2 * n + 2 + i] == LoadData(fixtures.value, ts[i], false))
  {
    var n := |ts|;
    var m := if fixtures.Some? then 1 else 0;
    var manage, load := ManageStep(Originals), LoadInTransactionStep(fixtures);
    assert forall db :: manage(db) == [Transaction(EnterManagement, db), Transaction(SetManaged(true), db)];
    assert forall db :: |load(db)| == m;
    var managed, loads := PerTarget(ts, manage), PerTarget(ts, load);
    var plan := RollbackSetupPlan(ts, fixtures, Originals);
    assert plan == managed + [DisableTransactions, ClearSiteCache] + loads;
    PerTargetLength(ts, manage, 2);
    PerTargetAt(ts, manage, 2, i, 0);
    PerTargetAt(ts, manage, 2, i, 1);
    assert plan[2 * i] == managed[2 * i] && plan[2 * i + 1] == managed[2 * i + 1];
    assert plan[2 * n] == DisableTransactions && plan[2 * n + 1] == ClearSiteCache;
    if fixtures.Some? {
      PerTargetLength(ts, load, 1);
      PerTargetAt(ts, load, 1, i, 0);
      assert plan[2 * n + 2 + i] == loads[1 * i + 0];
    } else {
      PerTargetLength(ts, load, 0);
    }
  }

  /** How many calls of a target's management block reach a database
      under the bindings `b`. */
  function ManageWidth(b: Bindings): nat {
    (if b.For(EnterManagement) == Real then 1 else 0) + (if b.For(SetManaged(true)) == Real then 1 else 0)
  }

  /** Where the management calls for `ts[i]` that reach a database sit in
      `plan`. */
  predicate ManagedAt(plan: seq<Event>, ts: seq<Alias>, b: Bindings, i: nat)
    requires i < |ts| && ManageWidth(b) * i + ManageWidth(b) <= |plan|
  {
    var width, enters := ManageWidth(b), if b.For(EnterManagement) == Real then 1 else 0;
    && (b.For(EnterManagement) == Real ==> plan[width * i] == Transaction(EnterManagement, ts[i]))
    && (b.For(SetManaged(true)) == Real ==> plan[width * i + enters] == Transaction(SetManaged(true), ts[i]))
  }

  predicate ManageLayout(plan: seq<Event>, ts: seq<Alias>, b: Bindings) {
    && ManageWidth(b) * |ts| <= |plan|
    && forall i :: 0 <= i < |ts| ==>
         ManageWidth(b) * i + ManageWidth(b) <= |plan| && ManagedAt(plan, ts, b, i)
  }

  /** Where the loads without commit for `ts[i]` sit in `plan`, from
      position `from` on. */
  predicate LoadLayout(plan: seq<Event>, from: nat, ts: seq<Alias>, fixtures: Option<seq<string>>) {
    && from + (if fixtures.Some? then |ts| else 0) <= |plan|
    && (fixtures.Some? ==> forall i :: 0 <= i < |ts| ==> plan[from + i] == LoadData(fixtures.value, ts[i], false))
  }

  lemma ManageAt(ts: seq<Alias>, b: Bindings, rest: seq<Event>, i: nat)
    requires i < |ts|
    ensures ManageWidth(b) * i + ManageWidth(b) <= |PerTarget(ts, ManageStep(b))|
    ensures ManagedAt(PerTarget(ts, ManageStep(b)) + rest, ts, b, i)
  {
    var width, enters := ManageWidth(b), if b.For(EnterManagement) == Real then 1 else 0;
    assert forall db :: |ManageStep(b)(db)| == width;
    PerTargetLength(ts, ManageStep(b), width);
    assert width * (i + 1) <= width * |ts|;
    assert width * (i + 1) == width + width * i;
    if width > 0 {
      PerTargetAt(ts, ManageStep(b), width, i, 0);
      if b.For(SetManaged(true)) == Real {
        PerTargetAt(ts, ManageStep(b), width, i, enters);
      }
    }
  }

  lemma ManageLayoutHolds(ts: seq<Alias>, b: Bindings, rest: seq<Event>)
    ensures |PerTarget(ts, ManageStep(b))| == ManageWidth(b) * |ts|
    ensures ManageLayout(PerTarget(ts, ManageStep(b)) + rest, ts, b)
  {
    assert forall db :: |ManageStep(b)(db)| == ManageWidth(b);
    PerTargetLength(ts, ManageStep(b), ManageWidth(b));
    forall i | 0 <= i < |ts|
      ensures ManageWidth(b) * i + ManageWidth(b) <= |PerTarget(ts, ManageStep(b)) + rest|
      ensures ManagedAt(PerTarget(ts, ManageStep(b)) + rest, ts, b, i)
    {
      ManageAt(ts, b, rest, i);
    }
  }

  lemma LoadLayoutHolds(prefix: seq<Event>, ts: seq<Alias>, fixtures: Option<seq<string>>)
    ensures |PerTarget(ts, LoadInTransactionStep(fixtures))| == (if fixtures.Some? then |ts| else 0)
    ensures LoadLayout(prefix + PerTarget(ts, LoadInTransactionStep(fixtures)), |prefix|, ts, fixtures)
  {
    var m := if fixtures.Some? then 1 else 0;
    assert forall db :: |LoadInTransactionStep(fixtures)(db)| == m;
    PerTargetLength(ts, LoadInTransactionStep(fixtures), m);
    if fixtures.Some? {
      forall i | 0 <= i < |ts|
        ensures (prefix + PerTarget(ts, LoadInTransactionStep(fixtures)))[|prefix| + i] == LoadData(fixtures.value, ts[i], false)
      {
        PerTargetAt(ts, LoadInTransactionStep(fixtures), 1, i, 0);
      }
    }
  }

  /** The management block makes transaction calls and nothing else. */
  lemma ManagementOnlyTransactions(ts: seq<Alias>, b: Bindings, rest: seq<Event>)
    ensures var manage := PerTarget(ts, ManageStep(b));
      forall j :: 0 <= j < |manage| ==> (manage + rest)[j].Transaction?
  {
    var manage := PerTarget(ts, ManageStep(b));
    forall j | 0 <= j < |manage|
      ensures (manage + rest)[j].Transaction?
    {
      PerTargetMember(ts, ManageStep(b), manage[j]);
    }
  }

  /** Where the switch sits in the rollback strategy's setup plan. */
  lemma SwitchPosition(ts: seq<Alias>, fixtures: Option<seq<string>>, b: Bindings)
    ensures var n := |PerTarget(ts, ManageStep(b))|;
      var plan := RollbackSetupPlan(ts, fixtures, b);
      && n + 1 < |plan| && plan[n] == DisableTransactions && plan[n + 1] == ClearSiteCache
      && forall j :: 0 <= j < n ==> plan[j].Transaction?
  {
    var manage := PerTarget(ts, ManageStep(b));
    var loads := PerTarget(ts, LoadInTransactionStep(fixtures));
    assert RollbackSetupPlan(ts, fixtures, b) == manage + ([DisableTransactions, ClearSiteCache] + loads);
    ManagementOnlyTransactions(ts, b, [DisableTransactions, ClearSiteCache] + loads);
  }

  lemma RollbackSetupLayout(ts: seq<Alias>, fixtures: Option<seq<string>>, b: Bindings)
    ensures var manage := PerTarget(ts, ManageStep(b));
      var plan := RollbackSetupPlan(ts, fixtures, b);
      && |manage| == ManageWidth(b) * |ts|
      && ManageLayout(plan, ts, b)
      && plan[|manage|] == DisableTransactions && plan[|manage| + 1] == ClearSiteCache
      && LoadLayout(plan, |manage| + 2, ts, fixtures)
      && |plan| == |manage| + 2 + (if fixtures.Some? then |ts| else 0)
      && forall j :: 0 <= j < |manage| ==> plan[j].Transaction?
  {
    var manage := PerTarget(ts, ManageStep(b));
    var loads := PerTarget(ts, LoadInTransactionStep(fixtures));
    var plan := RollbackSetupPlan(ts, fixtures, b);
    assert plan == manage + ([DisableTransactions, ClearSiteCache] + loads);
    assert plan == (manage + [DisableTransactions, ClearSiteCache]) + loads;
    ManageLayoutHolds(ts, b, [DisableTransactions, ClearSiteCache] + loads);
    LoadLayoutHolds(manage + [DisableTransactions, ClearSiteCache], ts, fixtures);
    ManagementOnlyTransactions(ts, b, [DisableTransactions, ClearSiteCache] + loads);
  }

  /** A test that starts while the transaction functions are still bound to
      `nop` (a previous rollback-strategy setup raised after switching)
      opens no transaction at all. */
  lemma {:induction false} RollbackSetupWhenDisabled(ts: seq<Alias>, fixtures: Option<seq<string>>)
    ensures RollbackSetupPlan(ts, fixtures, Disabled) ==
      [DisableTransactions, ClearSiteCache] + PerTarget(ts, LoadInTransactionStep(fixtures))
  {
    NoManagementWhenDisabled(ts);
  }

  lemma {:induction false} NoManagementWhenDisabled(ts: seq<Alias>)
    ensures PerTarget(ts, ManageStep(Disabled)) == []
  {
    if ts != [] {
      NoManagementWhenDisabled(ts[1..]);
    }
  }

  /** Where each target's rollback and leave sit in `plan`, from position
      `from` on. */
  predicate RollbackLayout(plan: seq<Event>, from: nat, ts: seq<Alias>) {
    && from + 2 * |ts| <= |plan|
    && forall i :: 0 <= i < |ts| ==>
         plan[from + 2 * i] == Transaction(Rollback, ts[i]) &&
         plan[from + 2 * i + 1] == Transaction(LeaveManagement, ts[i])
  }

  /** Where each connection's close sits in `plan`, from position `from` on. */
  predicate CloseLayout(plan: seq<Event>, from: nat, aliases: seq<Alias>) {
    && from + |aliases| <= |plan|
    && forall j :: 0 <= j < |aliases| ==> plan[from + j] == Close(aliases[j])
  }

  /** Rollback strategy, teardown: the switch back comes first; then for
      each target a real rollback followed by leaving transaction
      management; then every configured connection is closed, targets or
      not. */
  lemma RollbackTeardownOrder(ts: seq<Alias>, conns: seq<Connection>)
    ensures var plan := RollbackTeardownPlan(ts, conns);
      && |plan| == 1 + 2 * |ts| + |conns|
      && plan[0] == RestoreTransactions
      && (forall i :: 0 <= i < |ts| ==>
            plan[1 + 2 * i] == Transaction(Rollback, ts[i]) &&
            plan[2 + 2 * i] == Transaction(LeaveManagement, ts[i]))
      && (forall j :: 0 <= j < |conns| ==> plan[1 + 2 * |ts| + j] == Close(conns[j].alias))
  {
    var plan := RollbackTeardownPlan(ts, conns);
    var rb, cl := RollbackStep(), CloseStep();
    var aliases := Aliases(conns);
    PerTargetLength(ts, rb, 2);
    PerTargetLength(aliases, cl, 1);
    forall i | 0 <= i < |ts|
      ensures plan[1 + 2 * i] == Transaction(Rollback, ts[i])
      ensures plan[2 + 2 * i] == Transaction(LeaveManagement, ts[i])
    {
      PerTargetAt(ts, rb, 2, i, 0);
      PerTargetAt(ts, rb, 2, i, 1);
    }
    forall j | 0 <= j < |conns|
      ensures plan[1 + 2 * |ts| + j] == Close(conns[j].alias)
    {
      PerTargetAt(aliases, cl, 1, j, 0);
    }
  }

  /** Without transaction support on every connection, a `TestCase` sets up
      and tears down exactly as a `TransactionTestCase`. */
  lemma TestCaseWithoutTransactions(t: TestUnit, conns: seq<Connection>, b: Bindings)
    requires t.kind == TestCase && !SupportsTransactions(conns)
    ensures SetupPlan(t, conns, b) == SetupPlan(t.(kind := TransactionTestCase), conns, b)
    ensures TeardownPlan(t, conns) == TeardownPlan(t.(kind := TransactionTestCase), conns) == []
  {
  }

  /** Without `multi_db`, setup and teardown touch only the default
      database; only the closing of connections reaches the others. */
  lemma DefaultDatabaseOnly(t: TestUnit, conns: seq<Connection>, b: Bindings, e: Event)
    requires !t.multiDb
    requires e in SetupPlan(t, conns, b) || e in TeardownPlan(t, conns)
    ensures e.Flush? || e.LoadData? || e.Transaction? ==> e.db == DefaultAlias
  {
    var ts := Targets(t.multiDb, conns);
    assert ts == [DefaultAlias];
    if e in SetupPlan(t, conns, b) {
      if SetupPlan(t, conns, b) == FlushSetupPlan(ts, t.fixtures) {
        FlushSetupCalls(ts, t.fixtures, e);
      } else {
        RollbackSetupShape(ts, t.fixtures, b);
        if e in PerTarget(ts, ManageStep(b)) {
          PerTargetMember(ts, ManageStep(b), e);
        } else if e in PerTarget(ts, LoadInTransactionStep(t.fixtures)) {
          PerTargetMember(ts, LoadInTransactionStep(t.fixtures), e);
        }
      }
    } else {
      var rb := PerTarget(ts, RollbackStep());
      var cl := PerTarget(Aliases(conns), CloseStep());
      assert TeardownPlan(t, conns) == [RestoreTransactions] + rb + cl;
      if e in rb {
        PerTargetMember(ts, RollbackStep(), e);
      } else if e in cl {
        PerTargetMember(Aliases(conns), CloseStep(), e);
      }
    }
  }

  /** Setup never starts the test body nor switches the transaction
      functions back; teardown never switches them off. */
  lemma PlansKeepToTheirPhase(t: TestUnit, conns: seq<Connection>, b: Bindings)
    ensures RunTest !in SetupPlan(t, conns, b) && RestoreTransactions !in SetupPlan(t, conns, b)
    ensures RunTest !in TeardownPlan(t, conns) && DisableTransactions !in TeardownPlan(t, conns)
  {
    var ts := Targets(t.multiDb, conns);
    SetupPlansKeepToPhase(ts, t.fixtures, b);
    RollbackTeardownKeepsToPhase(ts, conns);
  }

  lemma SetupPlansKeepToPhase(ts: seq<Alias>, fixtures: Option<seq<string>>, b: Bindings)
    ensures RunTest !in FlushSetupPlan(ts, fixtures) && RestoreTransactions !in FlushSetupPlan(ts, fixtures)
    ensures RunTest !in RollbackSetupPlan(ts, fixtures, b) && RestoreTransactions !in RollbackSetupPlan(ts, fixtures, b)
  {
    if RunTest in FlushSetupPlan(ts, fixtures) {
      FlushSetupCalls(ts, fixtures, RunTest);
    }
    if RestoreTransactions in FlushSetupPlan(ts, fixtures) {
      FlushSetupCalls(ts, fixtures, RestoreTransactions);
    }
    RollbackSetupShape(ts, fixtures, b);
  }

  lemma RollbackTeardownKeepsToPhase(ts: seq<Alias>, conns: seq<Connection>)
    ensures RunTest !in RollbackTeardownPlan(ts, conns) && DisableTransactions !in RollbackTeardownPlan(ts, conns)
  {
    var rb := PerTarget(ts, RollbackStep());
    var cl := PerTarget(Aliases(conns), CloseStep());
    forall e | e in rb || e in cl
      ensures e.Transaction? || e.Close?
    {
      if e in rb {
        PerTargetMember(ts, RollbackStep(), e);
      } else {
        PerTargetMember(Aliases(conns), CloseStep(), e);
      }
    }
  }

  /** A prefix of a plan whose last call comes after the switch, where
      only transaction calls precede the switch, holds the switch. */
  lemma SwitchBeforeLaterCalls(plan: seq<Event>, n: nat, done: seq<Event>)
    requires n < |plan| && plan[n] == DisableTransactions
    requires forall j :: 0 <= j < n ==> plan[j].Transaction?
    requires done <= plan && done != [] && !done[|done| - 1].Transaction?
    ensures DisableTransactions in done
  {
    assert done[|done| - 1] == plan[|done| - 1];
    assert done[n] == plan[n];
  }

  // ---------------------------------------------------------------------
  // The bindings the test body runs under

  /** The transaction calls the test body makes that reach the database:
      those whose name is bound to the real function. */
  function Reaching(calls: seq<(TxOp, Alias)>, b: Bindings): (r: seq<Event>)
    ensures |r| <= |calls|
    ensures forall e :: e in r ==> e.Transaction? && b.For(e.op) == Real
  {
    if calls == [] then []
    else CallIfReal(b, calls[0].0, calls[0].1) + Reaching(calls[1..], b)
  }

  /** With the real functions bound, every call the body makes reaches the
      database, in order. */
  lemma {:induction false} ReachingAllReal(calls: seq<(TxOp, Alias)>)
    ensures |Reaching(calls, Originals)| == |calls|
    ensures forall i :: 0 <= i < |calls| ==>
      Reaching(calls, Originals)[i] == Transaction(calls[i].0, calls[i].1)
  {
    if calls != [] {
      ReachingAllReal(calls[1..]);
      assert Originals.For(calls[0].0) == Real && Disabled.For(calls[0].0) == Nop;
    }
  }

  /** With `nop` bound, no commit, rollback or savepoint call of the body
      reaches the database. */
  lemma {:induction false} ReachingDisabled(calls: seq<(TxOp, Alias)>)
    ensures Reaching(calls, Disabled) == []
  {
    if calls != [] {
      assert Disabled.For(calls[0].0) == Nop;
      ReachingDisabled(calls[1..]);
    }
  }

  /** The bindings left in force by a setup that issued `done`. */
  function BindingsAfterSetup(done: seq<Event>, b: Bindings): Bindings {
    if DisableTransactions in done then Disabled else b
  }

  /** The bindings left in force by a teardown that issued `done`. */
  function BindingsAfterTeardown(done: seq<Event>, b: Bindings): Bindings {
    if RestoreTransactions in done then Originals else b
  }

  /** Rollback strategy: the switch back is the first thing teardown does
      and cannot raise, so whatever a later rollback or close raises, the
      real transaction functions are bound again. */
  lemma TeardownRestores(t: TestUnit, conns: seq<Connection>, b: Bindings,
                         base: nat, faults: map<nat, BaseException>)
    requires t.kind == TestCase && SupportsTransactions(conns)
    ensures BindingsAfterTeardown(Run(TeardownPlan(t, conns), base, faults).done, b) == Originals
  {
    var r := Run(TeardownPlan(t, conns), base, faults);
    assert r.done[0] == RestoreTransactions;
  }

  /** A rollback-strategy setup that completes leaves `nop` bound, so the
      body's own commits and rollbacks cannot leave the test transaction. */
  lemma RollbackSetupIsolatesBody(t: TestUnit, conns: seq<Connection>, b: Bindings,
                                  base: nat, faults: map<nat, BaseException>, calls: seq<(TxOp, Alias)>)
    requires t.kind == TestCase && SupportsTransactions(conns)
    requires Run(SetupPlan(t, conns, b), base, faults).raised.None?
    ensures BindingsAfterSetup(Run(SetupPlan(t, conns, b), base, faults).done, b) == Disabled
    ensures Reaching(calls, Disabled) == []
  {
    RollbackSetupShape(Targets(t.multiDb, conns), t.fixtures, b);
    ReachingDisabled(calls);
  }

  /** The flush strategy never switches the bindings. */
  lemma FlushSetupKeepsBindings(t: TestUnit, conns: seq<Connection>, b: Bindings,
                                base: nat, faults: map<nat, BaseException>)
    requires t.kind == TransactionTestCase || !SupportsTransactions(conns)
    ensures BindingsAfterSetup(Run(SetupPlan(t, conns, b), base, faults).done, b) == b
  {
    var ts := Targets(t.multiDb, conns);
    var r := Run(SetupPlan(t, conns, b), base, faults);
    if DisableTransactions in r.done {
      FlushSetupCalls(ts, t.fixtures, DisableTransactions);
    }
  }

  /** A rollback-strategy setup that raises while clearing the cache or
      loading fixtures has already switched the bindings to `nop`; as
      teardown is then skipped, they stay switched off. */
  lemma LateSetupFaultLeavesDisabled(t: TestUnit, conns: seq<Connection>, b: Bindings,
                                     base: nat, faults: map<nat, BaseException>)
    requires t.kind == TestCase && SupportsTransactions(conns)
    requires var r := Run(SetupPlan(t, conns, b), base, faults);
      r.raised.Some? && (r.done[|r.done| - 1].ClearSiteCache? || r.done[|r.done| - 1].LoadData?)
    ensures BindingsAfterSetup(Run(SetupPlan(t, conns, b), base, faults).done, b) == Disabled
  {
    var ts := Targets(t.multiDb, conns);
    var plan := RollbackSetupPlan(ts, t.fixtures, b);
    assert SetupPlan(t, conns, b) == plan;
    var r := Run(plan, base, faults);
    assert r.done <= plan && r.done != [] && !r.done[|r.done| - 1].Transaction?;
    assert DisableTransactions in r.done by {
      SwitchPosition(ts, t.fixtures, b);
      SwitchBeforeLaterCalls(plan, |PerTarget(ts, ManageStep(b))|, r.done);
    }
  }
}
