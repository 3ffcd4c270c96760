/** The query side: a read model that folds account events into per-account
    transaction lists with a running balance. */
module Queries {
  import opened Base
  import Accounts

  datatype TransactionType = Debit | Credit

  datatype Transaction = Transaction(amount: real, reference: string, kind: TransactionType)

  /** What a transaction does to the balance. */
  function Signed(t: Transaction): real
  {
    if t.kind == TransactionType.Credit then t.amount else -t.amount
  }

  /** Credit amounts minus debit amounts over a transaction list. */
  function Total(ts: seq<Transaction>): real
  {
    if ts == [] then 0.0 else Signed(ts[0]) + Total(ts[1..])
  }

  lemma {:induction false} TotalAppend(ts: seq<Transaction>, us: seq<Transaction>)
    ensures Total(ts + us) == Total(ts) + Total(us)
    decreases |ts|
  {
    if ts == [] {
      assert ts + us == us;
    } else {
      assert (ts + us)[1..] == ts[1..] + us;
      TotalAppend(ts[1..], us);
    }
  }

  /** The read model's view: the transaction list of every known account. */
  type View = map<AggregateId, seq<Transaction>>

  /** handle_event on a view: Created installs an empty account (replacing
      any earlier one), Credited and Debited add a transaction to a known
      account, and name an unknown account only to fail with a KeyError
      (None). Only the entry of the event's account can change. */
  function Step(v: View, e: Accounts.AccountEvent): (r: Option<View>)
    ensures r.None? <==> !e.payload.Created? && e.aggregateId !in v
    ensures r.Some? ==> r.value.Keys == v.Keys + {e.aggregateId}
    ensures r.Some? ==> forall id :: id in v && id != e.aggregateId ==> r.value[id] == v[id]
  {
    var id := e.aggregateId;
    match e.payload
    case Created => Some(v[id := []])
    case Credited(reference, amount) =>
      if id in v then Some(v[id := v[id] + [Transaction(amount, reference, TransactionType.Credit)]]) else None
    case Debited(reference, amount) =>
      if id in v then Some(v[id := v[id] + [Transaction(amount, reference, TransactionType.Debit)]]) else None
  }

  /** The view after handling each event of `es` in turn; None once one of
      them fails. */
  function Project(v: View, es: seq<Accounts.AccountEvent>): Option<View>
    decreases |es|
  {
    if es == [] then Some(v)
    else match Step(v, es[0])
      case None => None
      case Some(w) => Project(w, es[1..])
  }

  /** Handling credits and debits of a known account appends one transaction
      per event and moves its total by the events' net amount. */
  lemma {:induction false} ProjectMovements(v: View, id: AggregateId, es: seq<Accounts.AccountEvent>)
    requires id in v
    requires forall i :: 0 <= i < |es| ==> es[i].aggregateId == id && !es[i].payload.Created?
    ensures Project(v, es).Some?
    ensures id in Project(v, es).value
    ensures |Project(v, es).value[id]| == |v[id]| + |es|
    ensures Total(Project(v, es).value[id]) == Total(v[id]) + Accounts.Net(es)
    decreases |es|
  {
    if es != [] {
      var w := Step(v, es[0]).value;
      var t := w[id][|w[id]| - 1];
      assert w[id] == v[id] + [t];
      assert Total([t]) == Signed(t);
      TotalAppend(v[id], [t]);
      ProjectMovements(w, id, es[1..]);
    }
  }

  /** Fed the same history as a replay, a Created event followed by that
      account's credits and debits, the read model's balance equals the
      replayed aggregate's balance. */
  lemma ProjectionMatchesReplay(v: View, id: Uuid, history: seq<Accounts.AccountEvent>)
    requires |history| > 0 && history[0] == Event(1, Some(id), Accounts.Created)
    requires forall i :: 1 <= i < |history| ==> history[i].aggregateId == Some(id) && !history[i].payload.Created?
    requires Fold(Accounts.ApplyChanges, Accounts.Nil(), history).Ok?
    ensures Project(v, history).Some? && Some(id) in Project(v, history).value
    ensures Total(Project(v, history).value[Some(id)]) == Fold(Accounts.ApplyChanges, Accounts.Nil(), history).value.state.balance
  {
    var rest := history[1..];
    var w := v[Some(id) := []];
    assert forall i :: 0 <= i < |rest| ==> rest[i] == history[i + 1];
    ProjectMovements(w, Some(id), rest);
    Accounts.ReplayBalance(history);
  }

  /** The query-side Account: an id, the transactions in arrival order and
      the running balance, which is always their total. */
  class Account {
    const id: AggregateId
    var transactions: seq<Transaction>
    var balance: real

    ghost predicate Valid()
      reads this
    {
      balance == Total(transactions)
    }

    constructor (id: AggregateId)
      ensures Valid()
      ensures this.id == id && transactions == [] && balance == 0.0
    {
      this.id := id;
      transactions := [];
      balance := 0.0;
    }

    method Credit(reference: string, amount: real)
      requires Valid()
      modifies this
      ensures Valid()
      ensures transactions == old(transactions) + [Transaction(amount, reference, TransactionType.Credit)]
      ensures balance == old(balance) + amount
    {
      TotalAppend(transactions, [Transaction(amount, reference, TransactionType.Credit)]);
      transactions := transactions + [Transaction(amount, reference, TransactionType.Credit)];
      balance := balance + amount;
    }

    method Debit(reference: string, amount: real)
      requires Valid()
      modifies this
      ensures Valid()
      ensures transactions == old(transactions) + [Transaction(amount, reference, TransactionType.Debit)]
      ensures balance == old(balance) - amount
    {
      TotalAppend(transactions, [Transaction(amount, reference, TransactionType.Debit)]);
      transactions := transactions + [Transaction(amount, reference, TransactionType.Debit)];
      balance := balance - amount;
    }
  }

  /** The outcome of handle_event: handled, or the KeyError it raises. */
  datatype Handled = Handled | KeyError

  class AccountReadModel {
    var accounts: map<AggregateId, Account>

    /** Each entry is its own consistent account object, keyed by its id. */
    ghost predicate Valid()
      reads this, accounts.Values
    {
      && (forall id :: id in accounts ==> accounts[id].id == id && accounts[id].Valid())
      && (forall i, j :: i in accounts && j in accounts && i != j ==> accounts[i] != accounts[j])
    }

    /** The transaction lists of the known accounts. */
    ghost function View(): View
      reads this, accounts.Values
    {
      map id | id in accounts :: accounts[id].transactions
    }

    constructor ()
      ensures Valid() && accounts == map[]
    {
      accounts := map[];
    }

    /** get: the account, or DoesNotExist (None) when the id is unknown. */
    method Get(accountId: AggregateId) returns (r: Option<Account>)
      ensures r.None? <==> accountId !in accounts
      ensures r.Some? ==> r.value == accounts[accountId]
    {
      if accountId in accounts {
        return Some(accounts[accountId]);
      }
      return None;
    }

    /** handle_event: update the event's account as Step describes, or raise
        KeyError (changing nothing) for a credit or debit of an unknown id. */
    method HandleEvent(e: Accounts.AccountEvent) returns (r: Handled)
      requires Valid()
      modifies this, accounts.Values
      ensures Valid()
      ensures r == KeyError <==> Step(old(View()), e).None?
      ensures r == KeyError ==> accounts == old(accounts) && View() == old(View())
      ensures forall x :: x in accounts.Values ==> x in old(accounts.Values) || fresh(x)
      ensures r == Handled ==> View() == Step(old(View()), e).value
      ensures forall id :: id in old(accounts) && id != e.aggregateId ==> id in accounts && accounts[id] == old(accounts[id])
    {
      var id := e.aggregateId;
      match e.payload {
        case Created =>
          Install(id);
        case Credited(reference, amount) =>
          if id !in accounts {
            return KeyError;
          }
          CreditKnown(id, reference, amount);
        case Debited(reference, amount) =>
          if id !in accounts {
            return KeyError;
          }
          DebitKnown(id, reference, amount);
      }
      r := Handled;
    }

    /** The Created branch: a new, empty account replaces any entry for `id`. */
    method Install(id: AggregateId)
      requires Valid()
      modifies this
      ensures Valid()
      ensures id in accounts && fresh(accounts[id]) && accounts == old(accounts)[id := accounts[id]]
      ensures View() == old(View())[id := []]
    {
      ghost var before := View();
      var account := new Account(id);
      assert forall k :: k in accounts ==> accounts[k] != account;
      accounts := accounts[id := account];
      assert View() == before[id := []];
    }

    /** The Credited branch for a known id: that account records the credit. */
    method CreditKnown(id: AggregateId, reference: string, amount: real)
      requires Valid() && id in accounts
      modifies accounts[id]
      ensures Valid()
      ensures View() == old(View())[id := old(View())[id] + [Transaction(amount, reference, TransactionType.Credit)]]
    {
      var account := accounts[id];
      ghost var before := View();
      account.Credit(reference, amount);
      assert forall k :: k in accounts && k != id ==> accounts[k] != account;
      assert View() == before[id := before[id] + [Transaction(amount, reference, TransactionType.Credit)]];
    }

    /** The Debited branch for a known id: that account records the debit. */
    method DebitKnown(id: AggregateId, reference: string, amount: real)
      requires Valid() && id in accounts
      modifies accounts[id]
      ensures Valid()
      ensures View() == old(View())[id := old(View())[id] + [Transaction(amount, reference, TransactionType.Debit)]]
    {
      var account := accounts[id];
      ghost var before := View();
      account.Debit(reference, amount);
      assert forall k :: k in accounts && k != id ==> accounts[k] != account;
      assert View() == before[id := before[id] + [Transaction(amount, reference, TransactionType.Debit)]];
    }
  }
}
