/** End-to-end runs of the ledger: the sample run of two accounts and a
    transfer, and the two ways the service writes a history that no longer
    replays (a repeated create and a transfer to the same account), with the
    repeated create also run against the intended `exists`. */
module Scenarios {
  import opened Base
  import opened Accounts
  import opened EventStore
  import opened Repositories
  import opened Services
  import Queries

  /** The subscriber the sample run registers: the read model's handle_event. */
  const ReadModelHandler := Handler("read_model.handle_event")

  /** The handler outcome when every handler returns normally. */
  function NeverRaises(h: Handler, e: AccountEvent): bool
  {
    false
  }

  /** A fresh ledger: an empty store, its repository and the service over it. */
  method NewLedger() returns (store: InMemoryEventStore<Change>, repository: InMemoryAccountRepository, service: AccountService)
    ensures fresh(store) && store.Valid()
    ensures store.history == map[] && store.topicHandlers == map[] && store.calls == []
    ensures store.raises == NeverRaises
    ensures repository.store == store && service.repository == repository
  {
    store := new InMemoryEventStore(NeverRaises);
    repository := new InMemoryAccountRepository(store);
    service := new AccountService(repository);
  }

  /** The store of a ledger whose only subscriber is the read model, which
      never raises, and that nothing writes under the topic `exists` asks. */
  ghost predicate Wired(store: InMemoryEventStore<Change>)
    reads store
  {
    && store.Valid()
    && store.HandlersOf(AccountTopic) == [ReadModelHandler]
    && store.raises == NeverRaises
    && forall id :: Lookup(store.history, ExistsTopic, id) == []
  }

  /** The events of a two-event list that name `id`. */
  lemma FilterPair(x: AccountEvent, y: AccountEvent, id: AggregateId)
    ensures Filter([x, y], id) == (if x.aggregateId == id then [x] else []) + (if y.aggregateId == id then [y] else [])
  {
    assert [x, y][1..] == [y] && [y][1..] == [];
    assert Filter([y], id) == (if y.aggregateId == id then [y] else []) + Filter([], id);
  }

  /** One step of the sample run: create an account that has no history. */
  method CreateStep(service: AccountService, id: Uuid, other: Uuid)
    requires Wired(service.repository.store) && id != other
    requires Stored(service.repository.store.history, id) == []
    modifies service.repository.store
    ensures Wired(service.repository.store)
    ensures Stored(service.repository.store.history, id) == [CreatedEvent(id)]
    ensures Stored(service.repository.store.history, other) == old(Stored(service.repository.store.history, other))
    ensures service.repository.store.calls == old(service.repository.store.calls) + [Call(ReadModelHandler, CreatedEvent(id))]
  {
    var store := service.repository.store;
    ghost var h := store.history;
    var r := service.Create(id);
    assert r == Done;
    BroadcastSingle(ReadModelHandler, [CreatedEvent(id)], NeverRaises);
    AppendAllLookup(h, AccountTopic, [CreatedEvent(id)], AccountTopic, Some(id));
    AppendAllLookup(h, AccountTopic, [CreatedEvent(id)], AccountTopic, Some(other));
    forall x ensures Lookup(store.history, ExistsTopic, x) == [] {
      AddLeavesExistsTopic(h, [CreatedEvent(id)], x);
    }
  }

  /** The sample run's credit of 10 to a freshly created account. */
  method CreditStep(service: AccountService, id: Uuid, other: Uuid, reference: string)
    requires Wired(service.repository.store) && id != other
    requires Stored(service.repository.store.history, id) == [CreatedEvent(id)]
    modifies service.repository.store
    ensures Wired(service.repository.store)
    ensures Stored(service.repository.store.history, id) == [CreatedEvent(id), Event(2, Some(id), Credited(reference, 10.0))]
    ensures Stored(service.repository.store.history, other) == old(Stored(service.repository.store.history, other))
    ensures service.repository.store.calls
            == old(service.repository.store.calls) + [Call(ReadModelHandler, Event(2, Some(id), Credited(reference, 10.0)))]
  {
    var store := service.repository.store;
    ghost var h := store.history;
    ghost var e := Event(2, Some(id), Credited(reference, 10.0));
    ReplayCreated(id);
    var r := service.Credit(id, reference, 10.0);
    assert r == Done;
    assert Accounts.Credit(Aggregate(AccountState(Some(id), 0.0), 1), reference, 10.0) == [e];
    BroadcastSingle(ReadModelHandler, [e], NeverRaises);
    AppendAllLookup(h, AccountTopic, [e], AccountTopic, Some(id));
    AppendAllLookup(h, AccountTopic, [e], AccountTopic, Some(other));
    forall x ensures Lookup(store.history, ExistsTopic, x) == [] {
      AddLeavesExistsTopic(h, [e], x);
    }
  }

  /** The sample run's transfer of 3 from the credited account to the other. */
  method TransferStep(service: AccountService, source: Uuid, destination: Uuid, creditRef: string, reference: string)
    requires Wired(service.repository.store) && source != destination
    requires Stored(service.repository.store.history, source)
             == [CreatedEvent(source), Event(2, Some(source), Credited(creditRef, 10.0))]
    requires Stored(service.repository.store.history, destination) == [CreatedEvent(destination)]
    modifies service.repository.store
    ensures Wired(service.repository.store)
    ensures Stored(service.repository.store.history, source)
            == old(Stored(service.repository.store.history, source)) + [Event(3, Some(source), Debited(reference, 3.0))]
    ensures Stored(service.repository.store.history, destination)
            == old(Stored(service.repository.store.history, destination)) + [Event(2, Some(destination), Credited(reference, 3.0))]
    ensures service.repository.store.calls
            == old(service.repository.store.calls) + [Call(ReadModelHandler, Event(3, Some(source), Debited(reference, 3.0))),
                                                      Call(ReadModelHandler, Event(2, Some(destination), Credited(reference, 3.0)))]
  {
    var store := service.repository.store;
    ghost var h := store.history;
    ghost var debit := Event(3, Some(source), Debited(reference, 3.0));
    ghost var credit := Event(2, Some(destination), Credited(reference, 3.0));
    ghost var created := CreatedEvent(source);
    ghost var credited := Event(2, Some(source), Credited(creditRef, 10.0));
    ghost var started := Aggregate(AccountState(Some(source), 0.0), 1);
    ghost var funded := Aggregate(AccountState(Some(source), 10.0), 2);
    FoldAppend(ApplyChanges, Nil(), [created], [credited]);
    assert [created] + [credited] == Stored(h, source);
    ReplayCreated(source);
    assert Accounts.Credit(started, creditRef, 10.0) == [credited];
    ApplyCredit(started, creditRef, 10.0);
    assert Replayed(Stored(h, source)) == Ok(funded);
    ReplayCreated(destination);
    var r := service.Transfer(source, destination, reference, 3.0);
    assert r == Done;
    assert Accounts.Debit(funded, reference, 3.0) + Accounts.Credit(Aggregate(AccountState(Some(destination), 0.0), 1), reference, 3.0)
           == [debit, credit];
    BroadcastSingle(ReadModelHandler, [debit, credit], NeverRaises);
    FilterPair(debit, credit, Some(source));
    FilterPair(debit, credit, Some(destination));
    AppendAllLookup(h, AccountTopic, [debit, credit], AccountTopic, Some(source));
    AppendAllLookup(h, AccountTopic, [debit, credit], AccountTopic, Some(destination));
    forall x ensures Lookup(store.history, ExistsTopic, x) == [] {
      AddLeavesExistsTopic(h, [debit, credit], x);
    }
  }

  /** The writes of the sample run: create accounts a and b, credit a with
      10, transfer 3 from a to b. Each account's history is its Created event
      followed by its own credits and debits, and the subscribed handler is
      called once per event, in the order the events were added. */
  method SampleWrites(a: Uuid, b: Uuid, creditRef: string, transferRef: string)
    returns (repository: InMemoryAccountRepository, events: seq<AccountEvent>)
    requires a != b
    ensures repository.store.Valid()
    ensures events == SampleEvents(a, b, creditRef, transferRef)
    ensures Stored(repository.store.history, a) == [events[0], events[2], events[3]]
    ensures Stored(repository.store.history, b) == [events[1], events[4]]
    ensures repository.store.calls == [Call(ReadModelHandler, events[0]), Call(ReadModelHandler, events[1]),
                                       Call(ReadModelHandler, events[2]), Call(ReadModelHandler, events[3]),
                                       Call(ReadModelHandler, events[4])]
  {
    var store, service;
    store, repository, service := NewLedger();
    store.Register(AccountTopic, ReadModelHandler);
    assert Wired(store);
    CreateStep(service, a, b);
    CreateStep(service, b, a);
    CreditStep(service, a, b, creditRef);
    TransferStep(service, a, b, creditRef, transferRef);
    events := SampleEvents(a, b, creditRef, transferRef);
  }

  /** A fresh read model fed `events`, in order, through handle_event, as
      its subscription delivers them; it ends in the view Project computes. */
  method FeedReadModel(events: seq<AccountEvent>) returns (readModel: Queries.AccountReadModel)
    requires Queries.Project(map[], events).Some?
    ensures readModel.Valid() && Some(readModel.View()) == Queries.Project(map[], events)
  {
    readModel := new Queries.AccountReadModel();
    var i := 0;
    while i < |events|
      invariant 0 <= i <= |events|
      invariant fresh(readModel) && readModel.Valid()
      invariant forall x :: x in readModel.accounts.Values ==> fresh(x)
      invariant Queries.Project(readModel.View(), events[i..]) == Queries.Project(map[], events)
    {
      assert events[i..][0] == events[i] && events[i..][1..] == events[i + 1..];
      var handled := readModel.HandleEvent(events[i]);
      i := i + 1;
    }
  }

  /** The view the sample run's five events project to. */
  lemma SampleView(events: seq<AccountEvent>, a: Uuid, b: Uuid, creditRef: string, transferRef: string)
    requires a != b
    requires events == SampleEvents(a, b, creditRef, transferRef)
    ensures Queries.Project(map[], events) ==
            Some(map[Some(a) := [Queries.Transaction(10.0, creditRef, Queries.TransactionType.Credit), Queries.Transaction(3.0, transferRef, Queries.TransactionType.Debit)],
                     Some(b) := [Queries.Transaction(3.0, transferRef, Queries.TransactionType.Credit)]])
  {
    var t1 := Queries.Transaction(10.0, creditRef, Queries.TransactionType.Credit);
    var t2 := Queries.Transaction(3.0, transferRef, Queries.TransactionType.Debit);
    var t3 := Queries.Transaction(3.0, transferRef, Queries.TransactionType.Credit);
    var v1 := map[Some(a) := []];
    var v2 := map[Some(a) := [], Some(b) := []];
    var v3 := map[Some(a) := [t1], Some(b) := []];
    var v4 := map[Some(a) := [t1, t2], Some(b) := []];
    var v5 := map[Some(a) := [t1, t2], Some(b) := [t3]];
    assert Queries.Step(map[], events[0]) == Some(v1);
    assert Queries.Step(v1, events[1]) == Some(v2);
    assert [] + [t1] == [t1] && [t1] + [t2] == [t1, t2] && [] + [t3] == [t3];
    assert v2[Some(a) := v2[Some(a)] + [t1]] == v3;
    assert Queries.Step(v2, events[2]) == Some(v3);
    assert v3[Some(a) := v3[Some(a)] + [t2]] == v4;
    assert Queries.Step(v3, events[3]) == Some(v4);
    assert v4[Some(b) := v4[Some(b)] + [t3]] == v5;
    assert Queries.Step(v4, events[4]) == Some(v5);
    assert events[4..][1..] == [];
    assert Queries.Project(v5, []) == Some(v5);
    assert Queries.Project(v4, events[4..]) == Some(v5);
    assert events[3..][1..] == events[4..];
    assert Queries.Project(v3, events[3..]) == Some(v5);
    assert events[2..][1..] == events[3..];
    assert Queries.Project(v2, events[2..]) == Some(v5);
    assert events[1..][1..] == events[2..];
    assert Queries.Project(v1, events[1..]) == Some(v5);
  }

  /** The events of the sample run, in the order they are added. */
  function SampleEvents(a: Uuid, b: Uuid, creditRef: string, transferRef: string): seq<AccountEvent>
  {
    [CreatedEvent(a), CreatedEvent(b), Event(2, Some(a), Credited(creditRef, 10.0)),
     Event(3, Some(a), Debited(transferRef, 3.0)), Event(2, Some(b), Credited(transferRef, 3.0))]
  }

  /** The sample run's replays: account a (created, credited, debited) is at
      version 3 with balance 7, account b (created, credited) at version 2
      with balance 3. */
  method ReplaySample(repository: InMemoryAccountRepository, a: Uuid, b: Uuid, creditRef: string, transferRef: string)
    returns (account: Result<Account>, recipient: Result<Account>)
    requires a != b
    requires Stored(repository.store.history, a) == [CreatedEvent(a), Event(2, Some(a), Credited(creditRef, 10.0)),
                                                     Event(3, Some(a), Debited(transferRef, 3.0))]
    requires Stored(repository.store.history, b) == [CreatedEvent(b), Event(2, Some(b), Credited(transferRef, 3.0))]
    ensures account.Ok? && account.value.version == 3 && account.value.state.balance == 7.0
    ensures recipient.Ok? && recipient.value.version == 2 && recipient.value.state.balance == 3.0
  {
    var credited, debited := Event(2, Some(a), Credited(creditRef, 10.0)), Event(3, Some(a), Debited(transferRef, 3.0));
    var loaded := repository.Get(a);
    assert [credited, debited][1..] == [debited];
    assert Net([debited]) == -3.0;
    assert Net([credited, debited]) == 7.0;
    account := Accounts.Replay(loaded.history);
    loaded := repository.Get(b);
    assert Net([Event(2, Some(b), Credited(transferRef, 3.0))]) == 3.0;
    recipient := Accounts.Replay(loaded.history);
  }

  /** The sample run's queries: a read model fed the run's events, as its
      subscription received them, reports
      balance 7 for account a and 3 for account b. */
  method QuerySample(events: seq<AccountEvent>, a: Uuid, b: Uuid, creditRef: string, transferRef: string)
    returns (viewed: real, viewedRecipient: real)
    requires a != b && events == SampleEvents(a, b, creditRef, transferRef)
    ensures viewed == 7.0 && viewedRecipient == 3.0
  {
    SampleView(events, a, b, creditRef, transferRef);
    var readModel := FeedReadModel(events);
    assert Some(a) in readModel.View() && Some(b) in readModel.View();
    var t1 := Queries.Transaction(10.0, creditRef, Queries.TransactionType.Credit);
    var t2 := Queries.Transaction(3.0, transferRef, Queries.TransactionType.Debit);
    var t3 := Queries.Transaction(3.0, transferRef, Queries.TransactionType.Credit);
    assert readModel.accounts[Some(a)].transactions == readModel.View()[Some(a)] == [t1, t2];
    assert readModel.accounts[Some(b)].transactions == readModel.View()[Some(b)] == [t3];
    assert [t1, t2] == [t1] + [t2] && [t1][1..] == [] && [t2][1..] == [] && [t3][1..] == [];
    Queries.TotalAppend([t1], [t2]);
    assert Queries.Total([t1, t2]) == 7.0 && Queries.Total([t3]) == 3.0;
    var found := readModel.Get(Some(a));
    viewed := found.value.balance;
    found := readModel.Get(Some(b));
    viewedRecipient := found.value.balance;
  }

  /** The sample run: the writes, then the replays and the read model's
      balances, which agree. */
  method SampleRun(a: Uuid, b: Uuid, creditRef: string, transferRef: string)
    returns (account: Result<Account>, recipient: Result<Account>, viewed: real, viewedRecipient: real)
    requires a != b
    ensures account.Ok? && account.value.version == 3 && account.value.state.balance == 7.0
    ensures recipient.Ok? && recipient.value.version == 2 && recipient.value.state.balance == 3.0
    ensures viewed == account.value.state.balance && viewedRecipient == recipient.value.state.balance
  {
    var repository, events := SampleWrites(a, b, creditRef, transferRef);
    account, recipient := ReplaySample(repository, a, b, creditRef, transferRef);
    viewed, viewedRecipient := QuerySample(events, a, b, creditRef, transferRef);
  }

  /** Creating the same account twice: `exists` looks at topic "topic",
      which nothing writes, so both creates succeed, the history holds two
      Created events expecting version 1, and replaying it raises
      VersionConflict. */
  method CreateTwice(a: Uuid) returns (first: Outcome, second: Outcome, replayed: Result<Account>)
    ensures first == Done && second == Done
    ensures replayed.VersionConflict?
  {
    var store, repository, service := NewLedger();
    ghost var h0 := store.history;
    first := service.Create(a);
    ghost var h1 := store.history;
    AddLeavesExistsTopic(h0, [CreatedEvent(a)], Some(a));
    AppendAllLookup(h0, AccountTopic, [CreatedEvent(a)], AccountTopic, Some(a));
    second := service.Create(a);
    AppendAllLookup(h1, AccountTopic, [CreatedEvent(a)], AccountTopic, Some(a));
    var loaded := repository.Get(a);
    assert loaded.history == [CreatedEvent(a)] + [CreatedEvent(a)];
    SecondCreateConflicts([CreatedEvent(a)], a);
    replayed := Accounts.Replay(loaded.history);
  }

  /** Creating the same account twice with the intended `exists`: the second
      create raises AccountAlreadyExists and the history still replays, to
      the new account at version 1. */
  method CreateTwiceIntended(a: Uuid) returns (first: Outcome, second: Outcome, replayed: Result<Account>)
    ensures first == Done && second == AccountAlreadyExists
    ensures replayed == Ok(Aggregate(AccountState(Some(a), 0.0), 1))
  {
    var store, repository, service := NewLedger();
    first := service.CreateIntended(a);
    second := service.CreateIntended(a);
    var loaded := repository.Get(a);
    ReplayCreated(a);
    replayed := Accounts.Replay(loaded.history);
  }

  /** A transfer from an account to itself succeeds, but the debit and the
      credit it stores expect the same version, so the account's history no
      longer replays. */
  method TransferToSelf(a: Uuid, reference: string, amount: real) returns (transferred: Outcome, replayed: Result<Account>)
    ensures transferred == Done
    ensures replayed.VersionConflict?
  {
    var store, repository, service := NewLedger();
    ghost var h0 := store.history;
    var created := service.Create(a);
    ghost var h1 := store.history;
    AppendAllLookup(h0, AccountTopic, [CreatedEvent(a)], AccountTopic, Some(a));
    assert Stored(h1, a) == [CreatedEvent(a)];
    transferred := service.Transfer(a, a, reference, amount);
    var created1 := Aggregate(AccountState(Some(a), 0.0), 1);
    ReplayCreated(a);
    var pair := Accounts.Debit(created1, reference, amount) + Accounts.Credit(created1, reference, amount);
    AppendAllLookup(h1, AccountTopic, pair, AccountTopic, Some(a));
    assert pair[1..][1..] == [];
    var loaded := repository.Get(a);
    assert loaded.history == [CreatedEvent(a)] + pair;
    SelfTransferConflicts([CreatedEvent(a)], reference, amount);
    replayed := Accounts.Replay(loaded.history);
  }
}
