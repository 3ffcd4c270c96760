/** AccountService: the business operations create, credit, debit and
    transfer, each loading histories through the repository, replaying them
    and persisting the events the accounts produce. */
module Services {
  import opened Base
  import opened Accounts
  import opened EventStore
  import opened Repositories

  /** How a service operation ends: normally, or with the exception it raises. */
  datatype Outcome =
    | Done
    | AccountAlreadyExists
    | AccountNotFound
    /** Event.VersionConflict, raised while replaying a stored history. */
    | ReplayConflict

  /** The AccountCreated event that `create` persists. */
  function CreatedEvent(accountId: Uuid): AccountEvent
  {
    Event(1, Some(accountId), Created)
  }

  /** The history stored for an account. */
  function Stored(h: History<Change>, accountId: Uuid): seq<AccountEvent>
  {
    Lookup(h, AccountTopic, Some(accountId))
  }

  /** The account a history replays to, or the version conflict it raises. */
  function Replayed(history: seq<AccountEvent>): Result<Account>
  {
    Fold(ApplyChanges, Nil(), history)
  }

  /** The store has gone through exactly one repository `add` of `es`:
      the events are appended under topic "account" and each is announced to
      the topic's handlers. */
  twostate predicate Persisted(store: InMemoryEventStore<Change>, es: seq<AccountEvent>)
    reads store
  {
    && store.history == AppendAll(old(store.history), AccountTopic, es)
    && store.topicHandlers == old(store.topicHandlers)
    && store.calls == old(store.calls) + Broadcast(old(store.HandlersOf(AccountTopic)), es, store.raises)
  }

  /** A history holding only the Created event replays to the new account:
      its id set, a zero balance, version 1. */
  lemma ReplayCreated(accountId: Uuid)
    ensures Replayed([CreatedEvent(accountId)]) == Ok(Aggregate(AccountState(Some(accountId), 0.0), 1))
  {
    var created := Aggregate(AccountState(Some(accountId), 0.0), 1);
    assert Apply(ApplyChanges, CreatedEvent(accountId), Nil()) == Ok(created);
    assert [CreatedEvent(accountId)][1..] == [];
    assert Fold(ApplyChanges, created, []) == Ok(created);
  }

  /** A second Created event appended to an existing history expects
      version 1 again, so the history no longer replays. */
  lemma SecondCreateConflicts(history: seq<AccountEvent>, accountId: Uuid)
    requires history != []
    ensures Replayed(history + [CreatedEvent(accountId)]).VersionConflict?
  {
    FoldAppend(ApplyChanges, Nil(), history, [CreatedEvent(accountId)]);
  }

  /** A transfer from an account to itself stamps the debit and the credit
      with the same expected version, so the history no longer replays. */
  lemma SelfTransferConflicts(history: seq<AccountEvent>, reference: string, amount: real)
    requires Replayed(history).Ok?
    ensures
      var a := Replayed(history).value;
      Replayed(history + (Debit(a, reference, amount) + Credit(a, reference, amount))).VersionConflict?
  {
    var a := Replayed(history).value;
    var pair := Debit(a, reference, amount) + Credit(a, reference, amount);
    FoldAppend(ApplyChanges, Nil(), history, pair);
    assert pair[1].expectedVersion != a.version + 1 + 1;
  }

  class AccountService {
    const repository: InMemoryAccountRepository

    constructor (repository: InMemoryAccountRepository)
      ensures this.repository == repository
    {
      this.repository := repository;
    }

    /** create: refuse when the repository says the account exists;
        otherwise persist one Created event expecting version 1. */
    method Create(accountId: Uuid) returns (r: Outcome)
      requires repository.store.Valid()
      modifies repository.store
      ensures repository.store.Valid()
      ensures r == AccountAlreadyExists <==> old(Lookup(repository.store.history, ExistsTopic, Some(accountId))) != []
      ensures r == AccountAlreadyExists ==> unchanged(repository.store)
      ensures r != AccountAlreadyExists ==> r == Done && Persisted(repository.store, [CreatedEvent(accountId)])
    {
      var known := repository.Exists(accountId);
      if known {
        return AccountAlreadyExists;
      }
      repository.Add([CreatedEvent(accountId)]);
      return Done;
    }

    /** create as evidently intended: refuse exactly when topic "account"
        already holds a history for the id, so an account is created at most
        once and its history keeps a single Created event. */
    method CreateIntended(accountId: Uuid) returns (r: Outcome)
      requires repository.store.Valid()
      modifies repository.store
      ensures repository.store.Valid()
      ensures r == AccountAlreadyExists <==> old(Stored(repository.store.history, accountId)) != []
      ensures r == AccountAlreadyExists ==> unchanged(repository.store)
      ensures r != AccountAlreadyExists ==>
                r == Done && Persisted(repository.store, [CreatedEvent(accountId)])
                && Stored(repository.store.history, accountId) == [CreatedEvent(accountId)]
    {
      var known := repository.ExistsIntended(accountId);
      if known {
        return AccountAlreadyExists;
      }
      repository.Add([CreatedEvent(accountId)]);
      AppendAllLookup(old(repository.store.history), AccountTopic, [CreatedEvent(accountId)], AccountTopic, Some(accountId));
      return Done;
    }

    /** credit: AccountNotFound without a history, the replay's conflict if
        the history does not replay, otherwise persist the account's credit
        event. Nothing is stored on failure. */
    method Credit(accountId: Uuid, reference: string, amount: real) returns (r: Outcome)
      requires repository.store.Valid()
      modifies repository.store
      ensures repository.store.Valid()
      ensures r == AccountNotFound <==> old(Stored(repository.store.history, accountId)) == []
      ensures r == ReplayConflict <==>
                old(Stored(repository.store.history, accountId)) != []
                && Replayed(old(Stored(repository.store.history, accountId))).VersionConflict?
      ensures r != AccountAlreadyExists
      ensures r != Done ==> unchanged(repository.store)
      ensures r == Done ==>
                Persisted(repository.store,
                  Accounts.Credit(Replayed(old(Stored(repository.store.history, accountId))).value, reference, amount))
    {
      var loaded := repository.Get(accountId);
      if loaded.DoesNotExist? {
        return AccountNotFound;
      }
      var account := Accounts.Replay(loaded.history);
      if account.VersionConflict? {
        return ReplayConflict;
      }
      repository.Add(Accounts.Credit(account.value, reference, amount));
      return Done;
    }

    /** debit: as credit, with the account's debit event. */
    method Debit(accountId: Uuid, reference: string, amount: real) returns (r: Outcome)
      requires repository.store.Valid()
      modifies repository.store
      ensures repository.store.Valid()
      ensures r == AccountNotFound <==> old(Stored(repository.store.history, accountId)) == []
      ensures r == ReplayConflict <==>
                old(Stored(repository.store.history, accountId)) != []
                && Replayed(old(Stored(repository.store.history, accountId))).VersionConflict?
      ensures r != AccountAlreadyExists
      ensures r != Done ==> unchanged(repository.store)
      ensures r == Done ==>
                Persisted(repository.store,
                  Accounts.Debit(Replayed(old(Stored(repository.store.history, accountId))).value, reference, amount))
    {
      var loaded := repository.Get(accountId);
      if loaded.DoesNotExist? {
        return AccountNotFound;
      }
      var account := Accounts.Replay(loaded.history);
      if account.VersionConflict? {
        return ReplayConflict;
      }
      repository.Add(Accounts.Debit(account.value, reference, amount));
      return Done;
    }

    /** transfer: load both histories (AccountNotFound if either is missing),
        replay both, and persist the source's debit followed by the
        destination's credit in one `add`, each stamped from its own
        account's version. Nothing is stored on failure. */
    method Transfer(sourceId: Uuid, destinationId: Uuid, reference: string, amount: real) returns (r: Outcome)
      requires repository.store.Valid()
      modifies repository.store
      ensures repository.store.Valid()
      ensures r == AccountNotFound <==>
                old(Stored(repository.store.history, sourceId)) == []
                || old(Stored(repository.store.history, destinationId)) == []
      ensures r == ReplayConflict <==>
                old(Stored(repository.store.history, sourceId)) != []
                && old(Stored(repository.store.history, destinationId)) != []
                && (Replayed(old(Stored(repository.store.history, sourceId))).VersionConflict?
                    || Replayed(old(Stored(repository.store.history, destinationId))).VersionConflict?)
      ensures r != AccountAlreadyExists
      ensures r != Done ==> unchanged(repository.store)
      ensures r == Done ==>
                Persisted(repository.store,
                  Accounts.Debit(Replayed(old(Stored(repository.store.history, sourceId))).value, reference, amount)
                  + Accounts.Credit(Replayed(old(Stored(repository.store.history, destinationId))).value, reference, amount))
    {
      var source := repository.Get(sourceId);
      if source.DoesNotExist? {
        return AccountNotFound;
      }
      var destination := repository.Get(destinationId);
      if destination.DoesNotExist? {
        return AccountNotFound;
      }
      var sourceAccount := Accounts.Replay(source.history);
      if sourceAccount.VersionConflict? {
        return ReplayConflict;
      }
      var destinationAccount := Accounts.Replay(destination.history);
      if destinationAccount.VersionConflict? {
        return ReplayConflict;
      }
      var events := Accounts.Debit(sourceAccount.value, reference, amount);
      events := events + Accounts.Credit(destinationAccount.value, reference, amount);
      repository.Add(events);
      return Done;
    }
  }
}
