# Event-sourced aggregate kernel with a bank-account example

A Dafny model of `2_aggregate.py`: a minimal event-sourcing domain-model
kernel whose aggregates change only by folding immutable domain events onto
themselves, plus the worked `Account` aggregate.

What is modelled:

- **Topics** (`topics.dfy`, module `Topics`). `get_topic` builds
  `<module>#<qualname>`. `resolve_topic` splits at the first `#`, imports the
  module and walks the dotted qualified name with `resolve_attr`. Python's
  `importlib.import_module` and `getattr` become an explicit `Registry`: a
  table of loaded modules and a table of attributes. A missing module or
  attribute is a resolution error.
- **Events and their meaning** (`domain.dfy`, module `Domain`). Events are
  an immutable datatype. `Opened` is the Created kind and carries the topic.
  `Triggered` carries one of the three Account changes. The pure function
  `Mutated` is what `mutate` does to an aggregate's fields: the creation path
  through the registry, the `NotAggregateError` and `VersionError` checks,
  the version/timestamp update, and the per-kind `apply` (`Apply`). `Replay`
  folds a whole history with it. `Runtime` is the registry restricted to the two
  aggregate classes: module `__main__` with the classes `Account` and
  `Aggregate`.
- **The aggregate object** (`account.dfy`, module `Aggregates`). Class
  `Account` holds the `Aggregate` base fields (`id`, `version`, `timestamp`,
  the `pendingEvents` deque as a `seq`) and the Account fields. It is updated
  in place by `Mutate`, `Trigger`, `Collect` (the `popleft` loop) and the
  business operations. A ghost `history` records every event applied to the
  object. Its part before the pending events, `Committed()`, is what
  `Collect` has already handed out. The invariant `Valid()` says the object
  equals the replay of that history, and that the pending events are the
  tail of it.
- **The script** at the end of the file (`scenario.dfy`, module `Scenario`).

The nondeterministic inputs `uuid4()` and `datetime.now()` are parameters
(`id`, `now`, `clock`). Money (`Decimal`) is an exact `real`.

Behaviours of the code that the model keeps as written:
- `Created.mutate` ignores its target even when one is given. It copies the
  event's `aggregate_version` without checking it, so a replayed creation
  event stamped 5 yields an aggregate at version 5. `Domain.HistoryVersions`
  states "version = number of events" relative to the creation event's
  version.
- `mutate` compares versions only. It never checks that `aggregate_id` is
  the target's id (`Domain.MutateIgnoresAggregateId`).
- `set_overdraft_limit` does not compare the new limit with the balance. A
  lower limit can leave the balance below `-overdraft_limit`, so
  "balance >= -overdraft_limit" holds after a successful
  `append_transaction` but is not an invariant of the account.
- `close` is not idempotent. Each call stages one more `Closed` event, also
  on a closed account (`Aggregates.Account.Close`).

## Model

| member | source | states |
|---|---|---|
| `Topics.Partition` | 2_aggregate.py:34 | `str.partition` with a one-character separator: split at the first occurrence so that head + sep + tail is the input and head has no separator; `(s, "", "")` when there is none; the tail is shorter than a non-empty input |
| `Topics.ImportModule` | 2_aggregate.py:35 | importing succeeds exactly for a loaded module and yields it; otherwise the error names the module |
| `Topics.ResolveAttr` | 2_aggregate.py:38-47 | the empty path yields the object itself; a first segment that is not an attribute of the object fails with that segment's name |
| `Topics.ResolveTopic` | 2_aggregate.py:30-36 | a topic without `#` resolves to the module it names; an unloaded module part fails with `ModuleNotFound` |
| `Topics.PartitionAt` | 2_aggregate.py:34 | splitting `a + sep + b` at `sep`, when `a` has no `sep`, gives back exactly `a` and `b`, whatever `b` contains |
| `Topics.GetTopic` | 2_aggregate.py:24-28 | the topic is exactly one character longer than the module name and the qualified name together, and that character, right after the module name, is `#`; `Topics.TopicSplit`, `Topics.TopicRoundTrip` and `Topics.TopicInjective` state what it means for resolution |
| `Topics.TopicSplit` | 2_aggregate.py:24-36 | `resolve_topic` splits a `get_topic` string back into the module and the qualified name when the module has no `#` |
| `Topics.TopicRoundTrip` | 2_aggregate.py:24-47 | resolving the topic of a registered class yields that class |
| `Topics.TopicInjective` | 2_aggregate.py:24-28 | two classes with the same topic are the same class, so topics identify classes uniquely |
| `Topics.ResolveAttrWalk` | 2_aggregate.py:38-47 | on a dotted path of non-empty, dot-free segments, `resolve_attr` performs one `getattr` per segment, in order |
| `Domain.AccountTopicResolves` | 2_aggregate.py:97-110 | in the running program, the topic `_create_` stamps on an Account's creation event resolves to the Account class |
| `Domain.Apply` | 2_aggregate.py:176-188 | the event-kind `apply` hooks change business fields only: id, version, timestamp, name and e-mail stay as they were |
| `Domain.Construct` | 2_aggregate.py:90-99 | `Created.mutate` succeeds exactly when the topic resolves to Account, building id, version and timestamp from the event with balance 0, overdraft limit 0 and the account open; an unresolvable topic gives a resolution error |
| `Domain.Mutated` | 2_aggregate.py:59-79 | a creation event builds a new aggregate whatever the target; another event on no target is `NotAggregateError`; on a target it succeeds exactly when its version is the target's plus one, else `VersionError(actual, expected)`; success sets version and timestamp from the event, keeps the id and applies the event's kind |
| `Domain.ReplayCreation` | 2_aggregate.py:90-99 | a history holding only a creation event replays to exactly the aggregate that event constructs, or fails with the construction's error |
| `Domain.AccountCreationReplays` | 2_aggregate.py:90-99 | a creation event carrying the Account topic replays to an open account with the event's id, version, timestamp, name and e-mail, and zero balance and limit |
| `Domain.ReplayFront` | 2_aggregate.py:59-99 | replaying a history mutates its first event onto the target first and continues from that result; an error stops the replay |
| `Domain.ReplayAppend` | 2_aggregate.py:59-99 | replaying two histories one after the other is replaying their concatenation, stopping at the first error |
| `Domain.ReplayTriggered` | 2_aggregate.py:59-79 | replaying non-creation events onto an aggregate succeeds exactly when their versions continue the aggregate's without gap or repetition; the version then grows by one per event and the id is kept |
| `Domain.HistoryVersions` | 2_aggregate.py:101-143 | a creation event followed by non-creation events replays exactly when the versions are gapless from the creation event's; the result has the creation event's id and its version counts the events |
| `Domain.MutateIgnoresAggregateId` | 2_aggregate.py:64-79 | an event carrying another aggregate's id but the next version is applied, and the target keeps its own id |
| `Domain.CheckAccountIsNotClosed` | 2_aggregate.py:210-212 | passes exactly on an open account, else `AccountClosedError` |
| `Domain.CheckHasSufficientFunds` | 2_aggregate.py:213-217 | passes exactly when `balance + amount >= -overdraft_limit`, else `InsufficientFundsError` carrying the account id |
| `Aggregates.Account.constructor` | 2_aggregate.py:154-170 | the dataclass constructor with `__post_init__`: given id, version, timestamp, name and e-mail; balance and overdraft limit 0, not closed, empty pending buffer; the result satisfies the aggregate invariant, being the replay of the matching Account creation event taken as already collected |
| `Aggregates.Account.Create` | 2_aggregate.py:101-118 | `_create_` builds the creation event at version 1 with the class's topic; it fails exactly when `Created.mutate` does; on success the fresh aggregate is at version 1, replays its history, and holds exactly that one event pending |
| `Aggregates.Account.Open` | 2_aggregate.py:197-208 | opening never fails: a fresh account at version 1 with the given id, name and e-mail, balance 0, overdraft limit 0, not closed, with exactly its `Opened` event pending |
| `Aggregates.Account.ApplyChange` | 2_aggregate.py:176-188 | the `apply` overrides on the object: its state becomes `Apply` of the change, touching only balance, overdraft limit and closed flag |
| `Aggregates.CreatedMutate` | 2_aggregate.py:90-99 | `Created.mutate` on objects: a fresh Account whose state is `Construct`'s and is the replay of the creation event, with an empty pending buffer, ready for every business operation (the aggregate invariant holds), or `Construct`'s error |
| `Aggregates.Mutate` | 2_aggregate.py:59-79 | `mutate` on objects follows `Mutated`: a failure leaves the target unchanged; success on a non-creation event returns the same object, advanced by one event, with its pending buffer untouched; the object still replays its history, and an object rebuilt this way with nothing pending satisfies the aggregate invariant again |
| `Aggregates.Account.Trigger` | 2_aggregate.py:120-143 | `_trigger_` builds the event at `version + 1` for this id, whose own `mutate` cannot fail; the state advances by exactly that event and exactly that event is appended at the tail of the pending buffer |
| `Aggregates.Account.Collect` | 2_aggregate.py:145-152 | `_collect_` returns the pending events in append (FIFO) order and leaves the buffer empty; the collected events extend the committed ones (the applied events that are not pending), and replaying the committed events before them followed by the collected ones rebuilds the account; the account's fields do not change |
| `Aggregates.Account.AppendTransaction` | 2_aggregate.py:219-228 | closed account: `AccountClosedError`; else `balance + amount < -overdraft_limit`: `InsufficientFundsError`; on either failure nothing changes and nothing is staged; else the balance becomes `balance + amount >= -overdraft_limit` and one `TransactionAppended` event is staged |
| `Aggregates.Account.SetOverdraftLimit` | 2_aggregate.py:229-237 | a negative limit fails the assertion; a closed account fails with `AccountClosedError`; failures change nothing; else the limit is replaced and one `OverdraftLimitSet` event is staged |
| `Aggregates.Account.Close` | 2_aggregate.py:238-239 | always succeeds, also when already closed: the account is closed and one more `Closed` event is staged |
| `Scenario.Transact` | 2_aggregate.py:247-252 | deposits of 10 and 10 and a withdrawal of 15 take a fresh account to balance 5 and stage three events |
| `Scenario.RefuseThenOverdraw` | 2_aggregate.py:254-266 | at balance 5 a withdrawal of 15 is refused with `InsufficientFundsError`; after raising the limit to 100 it succeeds, leaving -10; two events are staged |
| `Scenario.CloseThenRefuse` | 2_aggregate.py:268-277 | closing stages one event; the next withdrawal is refused with `AccountClosedError` and the balance stays -10 |
| `Scenario.RunScenario` | 2_aggregate.py:243-280 | the whole script collects exactly 7 events (Opened, +10, +10, -15, limit 100, -15, Closed), and ends at version 7 with balance -10, limit 100, closed |
| `Scenario.OpenedReplays` | 2_aggregate.py:243-246 | replaying the script's creation event resolves the Account topic and opens the account at version 1 with balance 0 |
| `Scenario.TransactReplays` | 2_aggregate.py:247-252 | replaying the three transactions takes the opened account to version 4 and balance 5 |
| `Scenario.OverdrawReplays` | 2_aggregate.py:263-266 | replaying the new limit and the retried withdrawal takes the account to version 6, balance -10, limit 100 |
| `Scenario.CloseReplays` | 2_aggregate.py:268-269 | replaying the Closed event closes the account at version 7 |
| `Scenario.ScenarioReplays` | 2_aggregate.py:243-280 | replaying the 7 collected events from nothing rebuilds exactly the account the script ends with |

## Left out

- `1_event.py`: a tutorial step whose only behaviour is the frozen dataclass; events here are Dafny datatype values, immutable by construction, so a write to an event cannot be expressed.
- The metaclass and dataclass machinery (`EventMetaclass`, `field(init=False)`, generated `__eq__`/`__repr__`): events are a datatype, the aggregate a class.
- `uuid4()` and `datetime.now()`: nondeterministic, so they are parameters of `Create`, `Open`, `Trigger` and the business operations.
- `importlib.import_module` and `getattr` reflection: replaced by the `Registry` tables; failure modes of `import_module` other than "no such module" (an empty or relative name) are not modelled.
- The `Aggregate` base class and `Account` are one Dafny class, since the model has no inheritance. `_create_` can still be called with any class's topic; a topic that resolves to something other than Account is reported as `NotConstructible`, the model of the `TypeError` Python raises when that class is called with the event's keyword arguments.
- The default no-op `Event.apply`: no Account event kind uses it, so there is no event kind for it.
- Aggregates.Account.constructor: the optional `balance` and `overdraft_limit` arguments of the generated `__init__` are not modelled; the account always starts at zero for both. Nothing in the code passes them, since `Created.mutate` passes only the creation event's fields. An account built with other values is not the replay of any history, so the aggregate invariant could not hold for it.
- Aggregates.Account.Trigger: takes a non-creation `Change`, so a Created-kind event cannot be triggered; in Python such a call fails when building the event, because `aggregate_topic` is missing.
- The `**kwargs` copying in `Created.mutate` and the `try/except AttributeError: raise` in `_trigger_`, which re-raises unchanged: event construction is a typed constructor.
- `Decimal` context precision (28 significant digits, rounding): money is an exact `real`.
- `Decimal` special values NaN, sNaN and ±Infinity: `real` has none. In Python a NaN amount or limit raises `decimal.InvalidOperation` at the comparisons in `append_transaction` and `set_overdraft_limit`, not one of the modelled errors. An infinite overdraft limit is accepted there.
- Names other than `Account` and `Aggregate` that Python can resolve: `Runtime` holds only those two classes of `__main__`. A topic naming anything else, such as `__main__#Account.Opened` or `builtins#dict`, gives a resolution error in the model. Python resolves it and then raises `TypeError` when calling the object with the event's fields, or builds an object that is not an aggregate.
- `assert` in `set_overdraft_limit` is modelled as always active (`AssertionError`); running Python with `-O` would skip it.
- `isinstance(obj, Aggregate)` for targets of other Python types: the target is a possibly-null `Account`, so only the absent target can fail this check.
- The `print` calls of the script. Persistence and event stores: there are none in the code. `Replay` is a specification function describing what such a store would do with collected events.
