# Event-sourced account ledger, modelled in Dafny

This project models the core of a small event-sourced accounting system. An
account is never stored as a balance. It is rebuilt by folding its ordered
history of immutable events (AccountCreated, AccountCredited,
AccountDebited) through a version check: an event applies only when its
expected version is exactly one more than the aggregate's version.

The model covers these parts:

- `base.dfy` (module `Base`): the generic event/aggregate protocol. It holds
  `Event.apply` and the `Factory.replay` / `Factory.apply` loops, proved
  equal to the recursive fold `Fold`.
- `account.dfy` (module `Accounts`): the Account aggregate, its three event
  kinds and their `apply_changes`, the events an account produces for a
  credit or a debit, and `AccountFactory`.
- `events.dfy` (module `EventStore`): the in-memory event store. It is a class
  whose `history` (topic, then aggregate id, then events) and
  `topicHandlers` fields its methods update in place.
- `repository.dfy` (module `Repositories`): the in-memory account repository
  over the store.
- `service.dfy` (module `Services`): `AccountService` with create, credit,
  debit and transfer.
- `queries.dfy` (module `Queries`): the query side. The query `Account` and
  `AccountReadModel` are classes, and a value-level projection `Project`
  specifies them.
- `scenarios.dfy` (module `Scenarios`): the sample run of `run.py` and the two
  ways the service writes histories that no longer replay.

Modelling choices:

- Account ids are `nat`. An aggregate's id is `Option<nat>`, because a nil
  account has no id and the events it produces carry that missing id.
- Decimal amounts are Dafny `real`s, which are exact.
- Python exceptions become results. `VersionConflict` is a `Result` case,
  `DoesNotExist` a `Loaded` case, and the service's exceptions an `Outcome`.
- The read model's `KeyError` is the `Handled` case `KeyError`.
- Subscribed handlers are callables outside the model. The store records each
  call in a ghost log `calls`. A constant `raises` says whether a handler
  raises `KeyError` for an event. That is the only handler outcome the store
  reacts to: the error ends the notification loop and is swallowed.
- `Event.apply` works on a deep copy. In the model aggregates are values, so
  the caller's aggregate can never change.
- `Factory.replay` and `Factory.apply` are functions, so the same history
  always gives the same result or the same conflict.

In the sample run of `run.py`, account A ends at version 3: its history is
Created, Credited and the transfer's Debited. Account B ends at version 2,
with Created and Credited. `Scenarios.SampleRun` proves these versions and
the balances 7 and 3.

`InMemoryAccountRepository.exists` queries topic `"topic"`, not `"account"`.
The service is modelled with that check as written. `Scenarios.CreateTwice`
proves the consequence: a second create succeeds, and the history then no
longer replays. The corrected check is modelled beside it (see Findings).

## Model

| member | source | states |
|---|---|---|
| Base.Apply | accounting/entities/base.py:22-29 | VersionConflict exactly when the expected version is not the aggregate's version plus one; otherwise the new aggregate's version is one more and its state is apply_changes of the old state |
| Base.Fold | accounting/entities/base.py:69-73 | the fold succeeds exactly when the events expect versions v+1, v+2, … in order, and then the version grows by the number of events |
| Base.FoldAppend | accounting/entities/base.py:69-73 | folding xs + ys folds xs and continues from its result; a conflict in xs is a conflict of the whole |
| Base.ApplyEvents | accounting/entities/base.py:69-73 | the accumulator loop, stopping at the first conflict, computes exactly the fold |
| Base.Replay | accounting/entities/base.py:60-66 | replay is the fold started from the kind's nil value |
| Accounts.Nil | accounting/entities/account.py:14-20 | the nil account has no id, balance 0 and version 0 |
| Accounts.ApplyChanges | accounting/entities/account.py:57-94 | Created sets the id and keeps the balance; Credited adds and Debited subtracts the amount, keeping the id |
| Accounts.Credit | accounting/entities/account.py:22-28 | exactly one Credited event with the account's id, the reference and amount, expecting version + 1 |
| Accounts.Debit | accounting/entities/account.py:30-36 | exactly one Debited event with the account's id, the reference and amount, expecting version + 1 |
| Accounts.FoldBalance | accounting/entities/account.py:49-94 | a successful fold's balance is the starting balance plus credits minus debits of the folded events |
| Accounts.ReplayBalance | accounting/entities/account.py:41-47 | a successful replay has balance = credits − debits of the history and version = its length |
| Accounts.ApplyCredit | accounting/entities/account.py:22-28 | the account's own credit events always apply to it: balance + amount, version + 1, same id |
| Accounts.ApplyDebit | accounting/entities/account.py:30-36 | the account's own debit events always apply to it: balance − amount, version + 1, same id |
| Accounts.Replay | accounting/entities/account.py:41-47 | AccountFactory.replay is the fold from nil; it succeeds iff the history expects versions 1..n, and then has version n and balance credits − debits |
| Accounts.ApplyEvents | accounting/entities/account.py:49-54 | AccountFactory.apply is the fold from the given account, with the same version and balance laws |
| EventStore.Append | accounting/infrastructure/events.py:13-16 | storing e under t extends exactly the (t, e's id) stream by e; every other stream is unchanged; no stream is ever empty |
| EventStore.AppendAllLookup | accounting/infrastructure/events.py:13-16 | storing a list under t extends each stream of t by exactly the listed events naming it, in order; other topics are unchanged |
| EventStore.AppendAllNoEmptyStreams | accounting/infrastructure/events.py:14-16 | stored streams stay non-empty however many events are added |
| EventStore.NotifiedPrefix | accounting/infrastructure/events.py:18-22 | the calls go to a prefix of the handlers, in registration order, each with the event; only the last may raise KeyError, and the prefix is short only when it did |
| EventStore.NotifiedAll | accounting/infrastructure/events.py:18-20 | when no handler raises, every handler of the topic is called once with the event, in registration order |
| EventStore.BroadcastSingle | accounting/infrastructure/events.py:18-20 | a single non-raising subscriber is called once per added event, in the order the events were added |
| EventStore.InMemoryEventStore.constructor | accounting/infrastructure/events.py:9-11 | a new store has no history, no handlers and has made no calls |
| EventStore.InMemoryEventStore.Add | accounting/infrastructure/events.py:13-22 | the event is appended to its own stream only, the handler registry is unchanged, and the calls made are those of the notification loop |
| EventStore.InMemoryEventStore.Notify | accounting/infrastructure/events.py:18-22 | the notification loop calls the handlers in order and stops after the first KeyError, leaving history and registry unchanged |
| EventStore.InMemoryEventStore.Get | accounting/infrastructure/events.py:24-25 | get returns the stored stream, empty for an unknown topic or id, and changes nothing |
| EventStore.InMemoryEventStore.Exists | accounting/infrastructure/events.py:27-28 | exists(t, id) holds iff the stream for (t, id) is non-empty |
| EventStore.InMemoryEventStore.Register | accounting/infrastructure/events.py:30-31 | register appends the handler to the topic's list; history and past calls are unchanged, so earlier events are never delivered to it |
| Repositories.AddLeavesExistsTopic | accounting/infrastructure/account.py:25-26 | adding account events never changes topic "topic", the one exists queries |
| Repositories.AddedAccountIsStored | accounting/infrastructure/account.py:12-14 | after add, topic "account" holds a history for the id of every added event |
| Repositories.InMemoryAccountRepository.constructor | accounting/infrastructure/account.py:9-10 | the repository wraps the given store |
| Repositories.InMemoryAccountRepository.Add | accounting/infrastructure/account.py:12-14 | the events are stored in list order under topic "account" and each is announced to that topic's handlers; an empty list changes nothing |
| Repositories.InMemoryAccountRepository.Get | accounting/infrastructure/account.py:16-23 | DoesNotExist iff no "account" events are stored for the id, otherwise exactly the stored history; the store is only read |
| Repositories.InMemoryAccountRepository.Exists | accounting/infrastructure/account.py:25-26 | as written: true iff topic "topic" holds a stream for the id |
| Repositories.InMemoryAccountRepository.ExistsIntended | accounting/infrastructure/account.py:25-26 | as intended: true iff topic "account" holds a history for the id |
| Services.ReplayCreated | accounting/entities/account.py:121-126 | the history holding only the Created event replays to the new account: id set, balance 0, version 1 |
| Services.SecondCreateConflicts | accounting/entities/account.py:121-126 | a second Created event appended to a non-empty history makes it fail to replay |
| Services.SelfTransferConflicts | accounting/entities/account.py:156-185 | a transfer's debit and credit for the same account expect the same version, so the history fails to replay |
| Services.AccountService.constructor | accounting/entities/account.py:118-119 | the service wraps the given repository |
| Services.AccountService.Create | accounting/entities/account.py:121-126 | AccountAlreadyExists iff the repository's exists holds, storing nothing; otherwise exactly one Created event expecting version 1 is added |
| Services.AccountService.CreateIntended | accounting/entities/account.py:121-126 | with the intended exists: refused iff the account has a history; otherwise its history is exactly the one Created event |
| Services.AccountService.Credit | accounting/entities/account.py:128-140 | AccountNotFound iff no history; the replay's VersionConflict iff it does not replay; nothing stored on failure; otherwise the replayed account's credit events are added |
| Services.AccountService.Debit | accounting/entities/account.py:142-154 | as credit, with the replayed account's debit events |
| Services.AccountService.Transfer | accounting/entities/account.py:156-185 | AccountNotFound iff either history is missing; conflict iff either does not replay; nothing stored on failure; otherwise one add of [source debit, destination credit], each stamped from its own account |
| Queries.TotalAppend | accounting/queries/account.py:29-39 | the total of a concatenation of transaction lists is the sum of their totals |
| Queries.Step | accounting/queries/account.py:60-68 | handle_event on the view fails iff a credit or debit names an unknown id; Created installs an empty account; only the event's entry changes |
| Queries.ProjectMovements | accounting/queries/account.py:60-68 | handling a known account's credits and debits appends one transaction per event and moves its total by their net amount |
| Queries.ProjectionMatchesReplay | accounting/queries/account.py:60-68 | fed a replayable history (Created, then that account's credits and debits), the read model's balance equals the replayed aggregate's balance |
| Queries.Account.constructor | accounting/queries/account.py:24-27 | a new query account has the id, no transactions and balance 0 |
| Queries.Account.Credit | accounting/queries/account.py:29-33 | appends one CREDIT transaction, adds the amount, keeps balance = total of transactions |
| Queries.Account.Debit | accounting/queries/account.py:35-39 | appends one DEBIT transaction, subtracts the amount, keeps balance = total of transactions |
| Queries.AccountReadModel.constructor | accounting/queries/account.py:51-52 | a new read model knows no accounts |
| Queries.AccountReadModel.Get | accounting/queries/account.py:54-58 | DoesNotExist iff the id is not a key, otherwise that account |
| Queries.AccountReadModel.HandleEvent | accounting/queries/account.py:60-68 | KeyError iff Step fails, and then neither the accounts map nor any account's transactions change; otherwise the view becomes Step's result, other entries keep their objects, and new objects are fresh |
| Queries.AccountReadModel.Install | accounting/queries/account.py:61-62 | a fresh empty account replaces any entry for the id |
| Queries.AccountReadModel.CreditKnown | accounting/queries/account.py:63-65 | a known account's list grows by the CREDIT transaction; the model stays consistent |
| Queries.AccountReadModel.DebitKnown | accounting/queries/account.py:66-68 | a known account's list grows by the DEBIT transaction; the model stays consistent |
| Scenarios.NewLedger | run.py:15-19 | a fresh store, repository and service wired together |
| Scenarios.CreateStep | run.py:24-25 | creating an account with no history stores only its Created event and calls the read model once |
| Scenarios.CreditStep | run.py:26-28 | the credit of 10 stores one Credited event expecting version 2 |
| Scenarios.TransferStep | run.py:29-32 | the transfer of 3 stores a Debited event expecting 3 for the source and a Credited event expecting 2 for the destination, in that order |
| Scenarios.SampleWrites | run.py:22-32 | the sample writes store A's and B's histories and call the subscriber once per event, in order |
| Scenarios.FeedReadModel | run.py:15-17 | a read model fed events in delivery order ends in the view Project computes |
| Scenarios.SampleView | run.py:22-32 | the sample events project to A: [credit 10, debit 3], B: [credit 3] |
| Scenarios.ReplaySample | run.py:34-35 | A replays to version 3, balance 7; B to version 2, balance 3 |
| Scenarios.QuerySample | run.py:38-39 | the read model reports balances 7 and 3 |
| Scenarios.SampleRun | run.py:22-39 | end to end: replayed and read-model balances agree, 7 and 3, at versions 3 and 2 |
| Scenarios.CreateTwice | accounting/infrastructure/account.py:25-26 | as written, both creates succeed and the resulting history raises VersionConflict on replay |
| Scenarios.CreateTwiceIntended | accounting/infrastructure/account.py:25-26 | with the intended exists, the second create raises AccountAlreadyExists and the history replays to version 1 |
| Scenarios.TransferToSelf | accounting/entities/account.py:156-185 | a transfer to the same account succeeds, and the account's history then raises VersionConflict on replay |

## Left out

- Handler callables are code outside the model. A handler is a name, and its
  only modelled outcome is whether it raises `KeyError`. Any other exception
  from a handler would leave `add` and propagate. That path is not modelled.
- EventStore.InMemoryEventStore.Add: the contract does not say that the event
  is stored before the first handler runs. The body stores it first and
  the notification loop leaves the history unchanged, but the call log does
  not record the history seen by each call.
- The abstract `Repository` and `AccountRepository` interfaces are not
  separate declarations, because the model has no traits. `AccountService`
  works directly on `InMemoryAccountRepository`.
- The read model's "any other event type" branch, which does nothing, cannot
  occur: the event payloads are a closed datatype of the three account
  events.
- In `run.py`, the service's subscriber is the read model's `handle_event`. In
  the model the store logs that call, and `Scenarios.FeedReadModel` replays
  the logged events into an `AccountReadModel`. The store and the read model
  are not one object graph.
- `__repr__` methods, the `__init__` re-exports, `uuid4` and the printing in
  `run.py` are not modelled. The scenarios take the ids and references as
  parameters.
- Python `Decimal` context precision is not modelled. Amounts are exact reals,
  and the code performs no sign or sufficiency checks on them, so none are
  modelled.
- Concurrency is not modelled. The code is single-threaded, and its only
  consistency mechanism is the version check.

## Findings

| source | as written | input that shows it | evidently intended | confidence | as-written member | corrected member |
|---|---|---|---|---|---|---|
| accounting/infrastructure/account.py:25-26 | `exists` asks the store about topic "topic", which nothing writes, so it is false for every account | `create(a)` twice on a fresh ledger: both succeed, and replaying a's history raises VersionConflict | `exists` asks about topic "account", so the second create raises AccountAlreadyExists and the history still replays | not executed | Scenarios.CreateTwice | Services.AccountService.CreateIntended |
