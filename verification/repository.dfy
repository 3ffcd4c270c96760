/** The in-memory account repository: an account-shaped view of the event
    store that turns "no history" into DoesNotExist. */
module Repositories {
  import opened Base
  import opened Accounts
  import opened EventStore

  /** The topic under which account events are stored. */
  const AccountTopic: Topic := "account"

  /** The topic that `exists` queries, as the repository is written; nothing
      in the ledger stores events under it. */
  const ExistsTopic: Topic := "topic"

  /** The outcome of `get`: the stored history, or DoesNotExist. */
  datatype Loaded = Loaded(history: seq<AccountEvent>) | DoesNotExist

  /** Adding account events never touches the topic that `exists` queries. */
  lemma AddLeavesExistsTopic(h: History<Change>, es: seq<AccountEvent>, id: AggregateId)
    ensures Lookup(AppendAll(h, AccountTopic, es), ExistsTopic, id) == Lookup(h, ExistsTopic, id)
  {
    AppendAllLookup(h, AccountTopic, es, ExistsTopic, id);
  }

  /** Once a Created event for an id has been added, topic "account" holds a
      history for that id: the condition `exists` evidently means to test. */
  lemma AddedAccountIsStored(h: History<Change>, es: seq<AccountEvent>, i: nat)
    requires i < |es|
    ensures Lookup(AppendAll(h, AccountTopic, es), AccountTopic, es[i].aggregateId) != []
  {
    var id := es[i].aggregateId;
    AppendAllLookup(h, AccountTopic, es, AccountTopic, id);
    FilterKeeps(es, i);
  }

  /** An event that names `es[i]`'s id survives Filter for that id. */
  lemma {:induction false} FilterKeeps(es: seq<AccountEvent>, i: nat)
    requires i < |es|
    ensures Filter(es, es[i].aggregateId) != []
    decreases i
  {
    if i > 0 && es[0].aggregateId != es[i].aggregateId {
      assert es[1..][i - 1] == es[i];
      FilterKeeps(es[1..], i - 1);
    }
  }

  /** Sequence concatenation regroups freely. Stated once here so that the
      loop step below need not rediscover it among the store's facts, which
      makes that proof much cheaper. */
  lemma ConcatAssociates<T>(a: seq<T>, b: seq<T>, c: seq<T>)
    ensures a + b + c == a + (b + c)
  {
  }

  /** One turn of add's loop: storing event `i` moves the remaining work
      from `es[i..]` to `es[i + 1..]` without changing where it ends. */
  lemma AddStep(h: History<Change>, c: seq<Call<Change>>, h': History<Change>, c': seq<Call<Change>>,
                hs: seq<Handler>, es: seq<AccountEvent>, i: nat, raises: (Handler, AccountEvent) -> bool)
    requires i < |es|
    requires h' == Append(h, AccountTopic, es[i]) && c' == c + Notified(hs, es[i], raises)
    ensures AppendAll(h', AccountTopic, es[i + 1..]) == AppendAll(h, AccountTopic, es[i..])
    ensures c' + Broadcast(hs, es[i + 1..], raises) == c + Broadcast(hs, es[i..], raises)
  {
    AppendAllFrom(h, AccountTopic, es, i);
    BroadcastFrom(hs, es, i, raises);
    ConcatAssociates(c, Notified(hs, es[i], raises), Broadcast(hs, es[i + 1..], raises));
  }

  class InMemoryAccountRepository {
    const store: InMemoryEventStore<Change>

    constructor (store: InMemoryEventStore<Change>)
      ensures this.store == store
    {
      this.store := store;
    }

    /** add: store each event, in list order, under topic "account". */
    method Add(events: seq<AccountEvent>)
      requires store.Valid()
      modifies store
      ensures store.Valid()
      ensures store.history == AppendAll(old(store.history), AccountTopic, events)
      ensures store.topicHandlers == old(store.topicHandlers)
      ensures store.calls == old(store.calls) + Broadcast(store.HandlersOf(AccountTopic), events, store.raises)
    {
      ghost var hs := store.HandlersOf(AccountTopic);
      var i := 0;
      while i < |events|
        invariant 0 <= i <= |events|
        invariant store.Valid() && store.topicHandlers == old(store.topicHandlers)
        invariant store.HandlersOf(AccountTopic) == hs
        invariant AppendAll(store.history, AccountTopic, events[i..]) == AppendAll(old(store.history), AccountTopic, events)
        invariant store.calls + Broadcast(hs, events[i..], store.raises)
                  == old(store.calls) + Broadcast(hs, events, store.raises)
      {
        ghost var history := store.history;
        ghost var calls := store.calls;
        store.Add(AccountTopic, events[i]);
        AddStep(history, calls, store.history, store.calls, hs, events, i, store.raises);
        i := i + 1;
      }
      assert events[i..] == [];
    }

    /** get: the history stored for the account, or DoesNotExist when there
        is none; the store is only read. */
    method Get(accountId: Uuid) returns (r: Loaded)
      ensures r.DoesNotExist? <==> Lookup(store.history, AccountTopic, Some(accountId)) == []
      ensures r.Loaded? ==> r.history == Lookup(store.history, AccountTopic, Some(accountId))
    {
      var events := store.Get(AccountTopic, Some(accountId));
      if events == [] {
        return DoesNotExist;
      }
      return Loaded(events);
    }

    /** exists, as written: it asks the store about topic "topic", not
        "account". */
    method Exists(accountId: Uuid) returns (b: bool)
      requires store.Valid()
      ensures b <==> Lookup(store.history, ExistsTopic, Some(accountId)) != []
    {
      b := store.Exists(ExistsTopic, Some(accountId));
    }

    /** exists as evidently intended: whether topic "account" holds a history
        for the account. The service keeps the check as written. */
    method ExistsIntended(accountId: Uuid) returns (b: bool)
      requires store.Valid()
      ensures b <==> Lookup(store.history, AccountTopic, Some(accountId)) != []
    {
      b := store.Exists(AccountTopic, Some(accountId));
    }
  }
}
