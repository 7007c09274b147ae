# Django test-isolation harness, modelled in Dafny

This project models the test harness in `django/test/testcases.py`, plus the `fix_os_paths` helper from the forms field tests. The harness keeps one test's database work from leaking into the next. It does this with one of two isolation strategies:

- **Flush strategy.** `TransactionTestCase` flushes every target database and loads the test's fixtures into it before each test.
- **Rollback strategy.** When every configured connection supports transactions, `TestCase` opens a managed transaction on every target database before the test. It then rebinds the seven module-level transaction functions (`commit`, `rollback`, the two savepoint functions, the two management functions and `managed`) to a no-op, so no call the test makes through those seven names reaches a database. It clears the `Site` cache and loads the fixtures without committing. After the test it puts the real functions back, rolls back and leaves management on every target, and closes every connection.

`__call__` wraps the unittest run:

- `_pre_setup` runs first. It does the fixture setup and is meant to empty the mail outbox afterwards. As written, that assignment raises `NameError`, because `mail` is never imported (see "## Findings").
- `_post_teardown` runs last.
- An `Exception` from either phase is reported to the result as an error. `KeyboardInterrupt` and `SystemExit` are re-raised.

The same file also has small pure helpers: `to_list`, `connections_support_transactions`, and the doctest `OutputChecker`. The checker tries a chain of comparisons and strips quotes with `_strip_quotes`; its XML comparison uses `check_element`.

Files:

- `values.dfy` (module `Values`): Python values as the helpers see them, `Option`, and `to_list`.
- `fields_unit.dfy` (module `FieldsUnit`): `fix_os_paths`.
- `transaction_facade.dfy` (module `TransactionFacade`): the seven bindings, as a `Facade` class with one field per name. `disable_transaction_methods` and `restore_transaction_methods` are methods of that class. The module also has the effect of a sequence of switch calls.
- `output_checker.dfy` (module `OutputChecker`): `str.strip`, `_strip_quotes`, `norm_whitespace`, `check_element`, the XML and JSON checkers, and `check_output`.
- `isolation_plans.dfy` (module `IsolationPlans`): the collaborator calls each phase issues, as a *plan* (the exact sequence of calls). It also defines `Run`, which says what happens to a plan when one of its calls raises, and the ordering properties of every plan.
- `lifecycle.dfy` (module `Lifecycle`):
  - The lifecycle as functions of the process state (`FixtureSetupSpec`, `PreSetupSpec`, `BodySpec`, `PostTeardownSpec`, `CallAfter`, `CallSpec`) and the guarantees proved about them.
  - `_pre_setup` and `__call__` as written (`PreSetupAsWritten`, `CallAsWritten`), with the unbound `mail`.
  - The imperative model: a `Process` class whose methods do what `_fixture_setup`, `_fixture_teardown`, `_post_teardown` and `__call__` do, loop by loop, and what `_pre_setup` is evidently meant to do (`Process.PreSetup` empties the outbox instead of raising `NameError`). Each method is proved equal to its function.

How the collaborators are modelled:

- The databases are seen through a log of the calls that reached them.
- `call_command('flush')`, `call_command('loaddata')`, the real transaction functions, `Site.objects.clear_cache()` and `connection.close()` each append one event to the log.
- A transaction call made through a binding set to the no-op appends nothing.
- Which collaborator call raises, and what it raises, is a parameter: a map from the log position where the call lands to the exception.
- The two switches and the start of the unittest run are logged as markers, which cannot raise. They make the order of events observable.

Three behaviours of the code are easy to miss:

- `restore_transaction_methods` rebinds all seven names to the saved originals unconditionally. Any number of disables followed by one restore gives back every real function (`TransactionFacade.DisablesThenRestore`).
- `_pre_setup` reaches `mail.outbox = []` only after `_fixture_setup` returns. As written, the name `mail` is unbound there, so every test whose setup returns is reported as an error and its body never runs (`Lifecycle.MissingMailImportFailsEveryTest`). The rest of the model uses the evidently intended `_pre_setup`: it empties the outbox after a setup that returns, and a setup that raises leaves the outbox as it was (`Lifecycle.PreSetupEmptiesOutbox`).
- The bindings are not always real again once a rollback-strategy test has finished. A rollback-strategy setup can raise after it has disabled the transaction functions, while clearing the cache or loading fixtures. `__call__` then reports the error and skips the teardown, so the no-op bindings stay in force for the tests that follow (`Lifecycle.FailedSetupLeavesSwitchOff`).

## Model

| member | source | states |
|---|---|---|
| Values.ToList | django/test/testcases.py:21-30 | The result is always a list. `None` gives the empty list. A list comes back unchanged. Any other value, a tuple included, becomes the one-element list holding it. |
| Values.ToListIdempotent | django/test/testcases.py:21-30 | Applying `to_list` to its own result changes nothing. |
| FieldsUnit.ReplaceBackslashes | tests/regressiontests/forms/fields_unit.py:18-19 | The string keeps its length. Each backslash becomes `/` and every other character is kept. No backslash is left. |
| FieldsUnit.FixOsPaths | tests/regressiontests/forms/fields_unit.py:17-25 | A string stays a string of the same length with no backslash left. A list stays a list and a tuple a tuple, each of the same length. Any other value is returned unchanged. (Element by element: `FixEach`, `FixOsPathsCases`.) |
| FieldsUnit.FixEach | tests/regressiontests/forms/fields_unit.py:22-23 | The list comprehension keeps the length, and element i of the result is `fix_os_paths` of element i. |
| FieldsUnit.FixOsPathsCases | tests/regressiontests/forms/fields_unit.py:17-25 | A string keeps its length and loses its backslashes. A list stays a list and a tuple stays a tuple, each with the same length and every element normalised. Any other value is returned unchanged. |
| FieldsUnit.TupleAsList | tests/regressiontests/forms/fields_unit.py:20-21 | A tuple is normalised exactly as the list of its elements, and stays a tuple. |
| FieldsUnit.ReplaceBackslashesFixes | tests/regressiontests/forms/fields_unit.py:18-19 | A string without backslashes is left unchanged. |
| FieldsUnit.FixOsPathsIdempotent | tests/regressiontests/forms/fields_unit.py:17-25 | `fix_os_paths(fix_os_paths(x)) == fix_os_paths(x)` for every value, nested lists and tuples included. |
| FieldsUnit.FixEachIdempotent | tests/regressiontests/forms/fields_unit.py:22-23 | Normalising the elements twice is normalising them once. |
| TransactionFacade.Facade.constructor | django/test/testcases.py:32-38 | At import time all seven names are bound to their real functions. |
| TransactionFacade.Facade.Disable | django/test/testcases.py:43-50 | Afterwards all seven names are bound to the no-op. |
| TransactionFacade.Facade.Restore | django/test/testcases.py:52-59 | Afterwards all seven names are bound to the saved real functions, whatever they were bound to before. |
| TransactionFacade.AfterSwitches | django/test/testcases.py:43-59 | No contract; read by `LastSwitchDecides` and `DisablesThenRestore`: the bindings after a sequence of switch calls. |
| TransactionFacade.LastSwitchDecides | django/test/testcases.py:43-59 | After any non-empty sequence of switch calls, the last call alone decides the bindings. |
| TransactionFacade.DisablesThenRestore | django/test/testcases.py:43-59 | Any number of disables followed by one restore leaves every name bound to its real function. |
| TransactionFacade.SwitchesIdempotent | django/test/testcases.py:43-59 | Calling either switch twice has the effect of calling it once. |
| TransactionFacade.DisableRestoreRoundTrip | django/test/testcases.py:43-59 | Disable then restore gives back the original bindings, and so does a restore without a prior disable. |
| OutputChecker.Strip | django/test/testcases.py:174 | `strip()` gives a result that neither starts nor ends with whitespace and is no longer than its input. |
| OutputChecker.StripPadded | django/test/testcases.py:174 | `strip()` removes exactly the whitespace around a text that does not itself start or end with whitespace. |
| OutputChecker.IsQuotedString | django/test/testcases.py:173-177 | No contract; read by `PaddedQuoted`: after stripping, at least two characters with the same quote character at both ends. |
| OutputChecker.IsQuotedUnicode | django/test/testcases.py:179-184 | No contract; read by `PaddedUnicodeQuoted`: after stripping, at least three characters, a leading `u`, then the same quote character at both ends. |
| OutputChecker.QuotedFormsExclusive | django/test/testcases.py:173-184 | No string is both quoted and u-quoted. |
| OutputChecker.StripQuotes | django/test/testcases.py:186-192 | No contract of its own; its three branches are stated by `StripQuotesOfQuoted`, `StripQuotesOfUnicodeQuoted` and `StripQuotesOtherwise`. |
| OutputChecker.PaddedQuoted | django/test/testcases.py:173-184 | A quoted string with whitespace around it is recognised as quoted and not as u-quoted, and stripping it leaves the quoted text. |
| OutputChecker.PaddedUnicodeQuoted | django/test/testcases.py:173-184 | A u-quoted string with whitespace around it is recognised as u-quoted and not as quoted, and stripping it leaves the u-quoted text. |
| OutputChecker.StripQuotesOfQuoted | django/test/testcases.py:186-188 | When both outputs are quoted, with either quote character and any surrounding whitespace, `_strip_quotes` returns exactly the two texts between the quotes. |
| OutputChecker.StripQuotesOfUnicodeQuoted | django/test/testcases.py:189-191 | When both outputs are u-quoted, `_strip_quotes` returns exactly the two texts between the quotes. |
| OutputChecker.StripQuotesOtherwise | django/test/testcases.py:186-192 | When the two outputs are neither both quoted nor both u-quoted, `_strip_quotes` returns both unchanged. |
| OutputChecker.StripQuotesMixedForms | django/test/testcases.py:186-192 | A quoted output paired with a u-quoted one, with any quote characters and any whitespace around either, matches neither branch: both come back unchanged, in either order. |
| OutputChecker.NormWhitespace | django/test/testcases.py:96-98 | The result is no longer than the input and never holds two blanks side by side. It is empty only for the empty input, and starts with a blank exactly when the input does. |
| OutputChecker.NormWhitespaceIdempotent | django/test/testcases.py:96-98 | Normalising whitespace twice is normalising it once. |
| OutputChecker.NormWhitespaceCollapsesRun | django/test/testcases.py:96-98 | A run of two or more blanks at the front, however long, becomes one space, and the rest is normalised on its own. |
| OutputChecker.NormWhitespaceKeeps | django/test/testcases.py:96-98 | A character at the front that does not start a run of blanks is kept as it is, and the rest is normalised on its own. With `NormWhitespaceCollapsesRun` this determines the result on every string. |
| OutputChecker.TextOf | django/test/testcases.py:100-102 | No contract; read by `TextOfAppend` and `OneNode`: the data of the text nodes, joined in order. |
| OutputChecker.TextOfAppend | django/test/testcases.py:100-102 | The text of `a + b` is the text of `a` followed by the text of `b`. |
| OutputChecker.NormChildText | django/test/testcases.py:108-109 | No contract: `norm_whitespace` of the joined child text. |
| OutputChecker.ElementsOf | django/test/testcases.py:104-106 | An element is among the children exactly when it is an element node of the given nodes, and there are no more children than nodes. |
| OutputChecker.ElementsOfAppend | django/test/testcases.py:104-106 | The children of `a + b` are the children of `a` followed by those of `b`, in order. |
| OutputChecker.OneNode | django/test/testcases.py:100-106 | A single node contributes its element if it is an element node, its data if it is a text node, and nothing otherwise. With the two append lemmas this fixes both lists in order. |
| OutputChecker.CheckElement | django/test/testcases.py:114-128 | No contract of its own; stated by `CheckElementIsShapeEquality` and the three lemmas below. |
| OutputChecker.CheckElementIsShapeEquality | django/test/testcases.py:114-128 | `check_element` holds exactly when the two elements have the same shape: tag, normalised child text, attributes, and the shapes of their child elements, in order, all equal. |
| OutputChecker.CheckElementReflexive | django/test/testcases.py:114-128 | Every element matches itself. |
| OutputChecker.CheckElementSymmetric | django/test/testcases.py:114-128 | If a matches b then b matches a. |
| OutputChecker.CheckElementTransitive | django/test/testcases.py:114-128 | If a matches b and b matches c then a matches c. |
| OutputChecker.UnescapeNewlines | django/test/testcases.py:131-132 | `replace('\\n', '\n')` leaves no backslash-n pair behind and is no longer than its input. It is empty only for the empty input and starts with `n` exactly when the input does. A string without backslashes comes back unchanged. |
| OutputChecker.UnescapesPair | django/test/testcases.py:131-132 | A backslash-n pair at the front becomes one newline, and the rest is unescaped on its own. |
| OutputChecker.UnescapeKeeps | django/test/testcases.py:131-132 | Any other character at the front, a backslash not followed by `n` included, is kept. With `UnescapesPair` this determines the result on every string. |
| OutputChecker.XmlDocuments | django/test/testcases.py:130-139 | No contract: the quote-stripped, newline-unescaped outputs, each wrapped in `<root>` unless `want` starts with `<?xml`. |
| OutputChecker.CheckOutputXml | django/test/testcases.py:130-147 | The XML checker accepts exactly when both wrapped documents parse and their first children match under `check_element`. |
| OutputChecker.CheckOutputXmlReflexive | django/test/testcases.py:130-147 | An output compared with itself is accepted whenever its document parses. |
| OutputChecker.CheckOutputJson | django/test/testcases.py:149-157 | No contract; stated by the two lemmas below. `loads` is `simplejson.loads` and `eq` is Python's `==` on decoded values. |
| OutputChecker.CheckOutputJsonOfQuoted | django/test/testcases.py:149-157 | For two quoted outputs, the JSON checker accepts exactly when the texts between the quotes both decode and the decoded values are equal under Python's `==`. |
| OutputChecker.CheckOutputJsonReflexive | django/test/testcases.py:149-157 | An output compared with itself is accepted exactly when its unquoted text decodes to a value equal to itself under Python's `==`, so not when it decodes to `NaN`. |
| OutputChecker.FirstAccepting | django/test/testcases.py:68-71 | The checker found is the first one that accepts: it accepts and every earlier one refused. When none is found, none accepts. |
| OutputChecker.FirstAcceptingIsFirst | django/test/testcases.py:68-71 | A checker that accepts after all earlier ones refused is the one found, so no later checker decides. |
| OutputChecker.FirstAcceptingOfFour | django/test/testcases.py:64-71 | With four checkers, one is found exactly when one of the four accepts. |
| OutputChecker.CheckOutput | django/test/testcases.py:62-71 | `check_output` is true exactly when the default, numeric, XML or JSON checker accepts. |
| IsolationPlans.SupportsTransactions | django/test/testcases.py:274-280 | True exactly when every configured connection's `SUPPORTS_TRANSACTIONS` is set. |
| IsolationPlans.OneUnsupportedSuffices | django/test/testcases.py:274-280 | One connection without transaction support makes the answer false. |
| IsolationPlans.Aliases | django/test/testcases.py:225-228 | The target list under `multi_db` has one alias per configured connection, in registry order. |
| IsolationPlans.Targets | django/test/testcases.py:225-228 | No contract; read by `DefaultDatabaseOnly` and `Aliases`: every configured alias under `multi_db`, otherwise only the default one. |
| IsolationPlans.Run | django/test/testcases.py:229-235 | The calls made are a prefix of the plan. When something is raised, the last call made is a collaborator call and the exception is the one faulted at its position; when nothing is raised, every call of the plan is made. That it is the first faulted call, and that a plan without faults raises nothing, are `RunStopsAt` and `RunNoFault`. |
| IsolationPlans.RunNoFault | django/test/testcases.py:229-235 | When no call of the plan is faulted, every call is made and nothing is raised. |
| IsolationPlans.RunStopsAt | django/test/testcases.py:229-235 | When the calls before position n are not faulted and the call at n is, the phase makes exactly the calls up to and including n and raises the exception faulted there. |
| IsolationPlans.SetupPlan | django/test/testcases.py:222-235 | No contract: the flush plan for `TransactionTestCase`; for `TestCase` the rollback plan when every connection supports transactions (lines 290-315), else the flush plan. |
| IsolationPlans.TeardownPlan | django/test/testcases.py:269-270 | No contract: no calls for `TransactionTestCase`; for `TestCase` the rollback teardown plan when every connection supports transactions (lines 317-334), else none. |
| IsolationPlans.CallIfReal | django/test/testcases.py:43-59 | No contract: a call through a rebound name reaches the database, as one event, only while that name is bound to the real function. Read by `ReachingAllReal` and `ReachingDisabled`. |
| IsolationPlans.FlushSetupPlan | django/test/testcases.py:229-235 | No contract: per target, a flush, then a load with commit when the test has fixtures. Its contents and positions are stated by `FlushSetupOrder` and `FlushSetupCalls`. |
| IsolationPlans.RollbackSetupPlan | django/test/testcases.py:301-315 | No contract: the management calls of every target through the bindings in force, the switch to `nop`, the cache clear, then the loads without commit. Stated by `RollbackSetupShape`, `RollbackSetupOrder` and `RollbackSetupWhenDisabled`. |
| IsolationPlans.RollbackTeardownPlan | django/test/testcases.py:328-334 | No contract: the restore, then rollback and leave on every target, then a close of every configured connection. Stated by `RollbackTeardownOrder`. |
| IsolationPlans.FlushSetupOrder | django/test/testcases.py:229-235 | Flush strategy: target i is flushed at position 2i and loaded, with commit, at 2i+1 (at position i, with no load, when there are no fixtures). |
| IsolationPlans.FlushSetupCalls | django/test/testcases.py:225-235 | Flush strategy: setup only flushes and loads with commit, and only the target databases. |
| IsolationPlans.RollbackSetupShape | django/test/testcases.py:301-315 | Rollback strategy, setup: the management calls of all targets come first, then one disable, then the cache clear, then the loads, all without commit. |
| IsolationPlans.RollbackSetupOrder | django/test/testcases.py:301-315 | With the real functions bound: for each target, enter management then `managed(True)` at positions 2i and 2i+1. The disable and the cache clear follow, then target i's load at 2n+2+i. |
| IsolationPlans.RollbackSetupWhenDisabled | django/test/testcases.py:301-304 | A rollback-strategy setup that starts with the no-op bindings in force opens no transaction. |
| IsolationPlans.RollbackTeardownOrder | django/test/testcases.py:328-334 | Rollback strategy, teardown: restore first, then rollback and leave for each target, then one close per configured connection, targets or not. |
| IsolationPlans.TestCaseWithoutTransactions | django/test/testcases.py:290-319 | When some connection lacks transaction support, a `TestCase` sets up exactly as the flush strategy does and tears down as it does, with no calls. |
| IsolationPlans.DefaultDatabaseOnly | django/test/testcases.py:225-228 | Without `multi_db`, every flush, load and transaction call of setup and teardown is on the default database. |
| IsolationPlans.PlansKeepToTheirPhase | django/test/testcases.py:290-334 | Setup never restores the bindings, teardown never disables them, and neither runs the test. |
| IsolationPlans.Reaching | django/test/testcases.py:43-59 | The calls that reach a database are no more than the calls made, and each of them is a transaction call whose name is bound to the real function. `ReachingAllReal` and `ReachingDisabled` give the two bindings the harness uses. |
| IsolationPlans.ReachingAllReal | django/test/testcases.py:32-38 | With the real functions bound, every transaction call of the test reaches its database, in order. |
| IsolationPlans.ReachingDisabled | django/test/testcases.py:43-50 | With the no-op bound, no transaction call of the test reaches a database. |
| IsolationPlans.TeardownRestores | django/test/testcases.py:328 | After a rollback-strategy teardown the real functions are bound, whatever it raised. |
| IsolationPlans.RollbackSetupIsolatesBody | django/test/testcases.py:301-304 | After a rollback-strategy setup that returns, the no-op bindings are in force. |
| IsolationPlans.FlushSetupKeepsBindings | django/test/testcases.py:222-235 | The flush strategy never switches the bindings. |
| IsolationPlans.LateSetupFaultLeavesDisabled | django/test/testcases.py:304-315 | A rollback-strategy setup that raises in the cache clear or a load leaves the no-op bindings in force. |
| Lifecycle.Handled | django/test/testcases.py:244-251 | An `Exception` is recorded once, as an error, and swallowed. `KeyboardInterrupt`, `SystemExit` and other `BaseException`s escape unrecorded. No exception, no record. |
| Lifecycle.FixtureSetupSpec | django/test/testcases.py:222-235 | No contract: the log grows by `Run` of the setup plan and the bindings follow the switch it reached. |
| Lifecycle.PreSetupSpec | django/test/testcases.py:209-220 | No contract: `_pre_setup` as its docstring describes it; the outbox is emptied only after a fixture setup that returns. |
| Lifecycle.PreSetupAsWritten | django/test/testcases.py:209-220 | No contract: `_pre_setup` as written; a fixture setup that returns is followed by the `NameError` of the unbound `mail`. |
| Lifecycle.BodySpec | django/test/testcases.py:252 | No contract: the run is logged, its transaction calls go through the bindings in force, its mail is appended. |
| Lifecycle.PostTeardownSpec | django/test/testcases.py:262-267 | No contract: the log grows by `Run` of the teardown plan and the bindings follow the restore it reached. |
| Lifecycle.CallAfter | django/test/testcases.py:237-260 | No contract: `__call__` given the outcome of `_pre_setup`. |
| Lifecycle.CallSpec | django/test/testcases.py:237-260 | No contract: `__call__` with the described `_pre_setup`; stated by the lemmas below. |
| Lifecycle.CallAsWritten | django/test/testcases.py:237-260 | No contract: `__call__` with the written `_pre_setup`; stated by `MissingMailImportFailsEveryTest`. |
| Lifecycle.PreSetupEmptiesOutbox | django/test/testcases.py:209-220 | Intended `_pre_setup`: after a setup that returns, the outbox is empty. After one that raises, the outbox is as it was. |
| Lifecycle.SetupErrorSkipsBodyAndTeardown | django/test/testcases.py:244-251 | A setup `Exception` gives exactly one error record and nothing escapes. The state is the setup's, so no teardown call is made, and the test is never run. |
| Lifecycle.InterruptsPropagate | django/test/testcases.py:244-260 | An interrupt from setup escapes with nothing recorded. One from teardown escapes with only the run's own reports recorded. |
| Lifecycle.BodyRunsBetweenSetupAndTeardown | django/test/testcases.py:252-260 | Intended `_pre_setup`, with a setup that returns and a run nothing escapes: the log is the whole setup, then the run, then the teardown. A teardown `Exception` is recorded once after the run's reports and not re-raised. A clean teardown makes every call of its plan. |
| Lifecycle.OutboxHoldsOnlyTheTestsMail | django/test/testcases.py:209-252 | Intended `_pre_setup`: after a setup that returns, the outbox at the end holds exactly the mail the test sent. |
| Lifecycle.TestCaseIsolatesBody | django/test/testcases.py:301-334 | Intended `_pre_setup`, rollback strategy: no call the test makes through the seven rebound names reaches a database. If nothing escapes the run, the real functions are bound again at the end. |
| Lifecycle.TransactionTestCaseBodyReachesDatabase | django/test/testcases.py:222-235 | Intended `_pre_setup`, flush strategy, starting from the real bindings: every transaction call of the test reaches its database, in order, and the real bindings stay in force. |
| Lifecycle.FailedSetupLeavesSwitchOff | django/test/testcases.py:244-251 | A rollback-strategy setup `Exception` raised after the disable is swallowed, and the no-op bindings stay in force. The next test's transaction calls reach no database, and the next rollback-strategy setup opens no transaction. |
| Lifecycle.MissingMailImportFailsEveryTest | django/test/testcases.py:209-260 | As written, `_pre_setup` always raises. `__call__` never runs the test body, never empties the outbox, and reports a setup that returned as one `NameError` with nothing escaping. Under the rollback strategy the no-op bindings stay in force afterwards. |
| Lifecycle.MissingMailImportExample | django/test/testcases.py:209-260 | A flush-strategy test with no fixtures and no faults that succeeds under the intended `_pre_setup` is reported as one `NameError` under the written one. |
| Lifecycle.TestResult.AddError | django/test/testcases.py:250 | One error record is appended to the result. |
| Lifecycle.Process.Transact | django/test/testcases.py:302-303 | A transaction call is logged, and can raise, only when its name is bound to the real function. |
| Lifecycle.Process.FlushEach | django/test/testcases.py:229-235 | The flush loop makes exactly the calls `Run` prescribes for the plan, up to and including the first one that raises. |
| Lifecycle.Process.FlushFixtureSetup | django/test/testcases.py:222-235 | The log grows by `Run` of the flush plan for the targets, and the method raises what `Run` raises. |
| Lifecycle.Process.EnterManagementEach | django/test/testcases.py:301-303 | The management loop makes the plan's management calls in order, up to the first one that raises. |
| Lifecycle.Process.LoadEach | django/test/testcases.py:309-315 | The load loop makes the plan's loads without commit in order, up to the first one that raises. |
| Lifecycle.Process.TransactionalSetup | django/test/testcases.py:294-315 | The log grows by `Run` of the rollback setup plan. The bindings are the no-op exactly when the disable was reached. |
| Lifecycle.Process.RollbackFixtureSetup | django/test/testcases.py:290-315 | `TestCase._fixture_setup` equals `Run` of its setup plan, for both strategies, with the bindings that result. |
| Lifecycle.Process.FixtureSetup | django/test/testcases.py:290-292 | `_fixture_setup` of either class equals `Run` of that class's setup plan. |
| Lifecycle.Process.FlushFixtureTeardown | django/test/testcases.py:269-270 | The flush strategy's teardown raises nothing and makes no call. |
| Lifecycle.Process.RollbackEach | django/test/testcases.py:329-331 | The teardown loop makes each target's rollback then leave, up to the first one that raises. |
| Lifecycle.Process.CloseEach | django/test/testcases.py:333-334 | Every configured connection is closed in order, up to the first close that raises. |
| Lifecycle.Process.TransactionalTeardown | django/test/testcases.py:321-334 | The log grows by `Run` of the rollback teardown plan, and the real functions are bound afterwards. |
| Lifecycle.Process.RollbackFixtureTeardown | django/test/testcases.py:317-334 | `TestCase._fixture_teardown` equals `Run` of its teardown plan, with the bindings that result. |
| Lifecycle.Process.FixtureTeardown | django/test/testcases.py:317-319 | `_fixture_teardown` of either class equals `Run` of that class's teardown plan. |
| Lifecycle.Process.PreSetup | django/test/testcases.py:209-220 | `_pre_setup` changes the state as `PreSetupSpec`, the intended version, says. |
| Lifecycle.Process.PostTeardown | django/test/testcases.py:262-267 | `_post_teardown` changes the state as `PostTeardownSpec` does. |
| Lifecycle.Process.RunWrapped | django/test/testcases.py:252 | The run is logged. Its transaction calls reach the databases through the bindings in force. Its mail and reports are appended. |
| Lifecycle.Process.Handle | django/test/testcases.py:246-251 | The `except` clauses add what `Handled` says to the result, and let through what it says escapes. |
| Lifecycle.Process.RunThenTeardown | django/test/testcases.py:252-260 | Once `_pre_setup` has returned, the rest of `__call__` (the wrapped run, then `_post_teardown` unless something escaped the run) leaves the state, the result and the escaping exception exactly as `CallAfter` says. |
| Lifecycle.Process.Invoke | django/test/testcases.py:237-260 | `__call__` leaves the state, the result and the escaping exception exactly as `CallSpec` says, with the intended `_pre_setup`. |

## Left out

- XML parsing (`parseString`) and JSON decoding (`simplejson.loads`) are parameters: functions that give a parsed tree or decoded value, or `None` when parsing fails.
- `check_output_default` and `check_output_numeric` are parameters of `OutputChecker.CheckOutput`. Doctest's own comparison and the regular expressions `normalize_long_ints` and `normalize_decimals` are not part of this model.
- OutputChecker.CheckOutputXml: the case where a document's first child is not an element, where `check_element` would fail on a missing `tagName`, is not modelled. `parse` always gives an element or `None`.
- OutputChecker.Strip: only the ASCII whitespace that `str.strip()` removes is modelled; the wider whitespace set of unicode strings is not.
- JSON values and Python's `==` on them are parameters: `loads` and `eq` of `OutputChecker.CheckOutputJson`. `eq` need not be reflexive, as with a decoded `NaN`.
- IsolationPlans.SupportsTransactions: every connection is taken to have a `SUPPORTS_TRANSACTIONS` setting holding a boolean. A connection without the key, where `settings_dict['SUPPORTS_TRANSACTIONS']` raises `KeyError`, is not modelled.
- Lifecycle.TestCaseIsolatesBody: only the seven names the switch rebinds are covered. The other `transaction` entry points, such as `rollback_unless_managed` (django/test/testcases.py:206) or `commit_unless_managed`, are never rebound, and a call of one of them by the test cannot be expressed in the model's transaction operations.
- Lifecycle.PreSetupEmptiesOutbox: states the evidently intended `_pre_setup`. As written, `mail` is never imported, so the outbox is never emptied (see "## Findings" and `Lifecycle.MissingMailImportFailsEveryTest`).
- Lifecycle.OutboxHoldsOnlyTheTestsMail: holds for the intended `_pre_setup` only. As written, no test body runs, and the outbox keeps what was in it before.
- Lifecycle.Process.PreSetup: implements the intended `_pre_setup`. As written, it raises `NameError` after every fixture setup that returns (`Lifecycle.PreSetupAsWritten`).
- `DocTestRunner` is not part of this model. It only delegates to doctest and to `rollback_unless_managed`.
- The real `call_command('flush')`, `call_command('loaddata')`, transaction functions, `Site.objects.clear_cache()` and `connection.close()` are not modelled. Each is one log event, and whether it raises comes from the fault map.
- The unittest run itself (`setUp`, the test method, `tearDown`) is opaque. Its transaction calls, its mail, its reports and the exception that escapes it are a parameter.
- Lifecycle.Process.RunWrapped: the order in which the run interleaves its transaction calls with its mail and reports is not modelled, and its transaction calls are assumed not to raise. An exception from one of them is part of what escapes the run.
- Lifecycle.Process.Invoke: `__call__` with `result=None` is not modelled. A result object is always passed.
- The `ROOT_URLCONF` handling that the `_pre_setup` and `_post_teardown` docstrings mention is not in this version of the code, and so is not modelled.

## Findings

| source | as written | input that shows it | evidently intended | confidence | as-written member | corrected member |
|---|---|---|---|---|---|---|
| django/test/testcases.py:220 | `_pre_setup` assigns `mail.outbox = []`, but `mail` is not among the names imported at lines 1-16, so the assignment raises `NameError` whenever `_fixture_setup` returns. | A `TransactionTestCase` without `multi_db` or fixtures, no collaborator raising, and a test that succeeds: it is reported as one error and its body never runs. | `mail` imported from `django.core`, so the outbox is emptied after a fixture setup that returns. | high; not executed | Lifecycle.MissingMailImportFailsEveryTest | Lifecycle.PreSetupEmptiesOutbox |
