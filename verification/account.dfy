/** The Account aggregate: its state, its three event kinds, how each kind
    changes the state, and the events the aggregate produces itself. */
module Accounts {
  import opened Base

  /** The domain part of an account: its id (none until created) and its
      balance, an exact decimal. */
  datatype AccountState = AccountState(id: AggregateId, balance: real)

  type Account = Aggregate<AccountState>

  /** Payloads of AccountCreated, AccountCredited and AccountDebited; the
      account id and the expected version are carried by the event itself. */
  datatype Change =
    | Created
    | Credited(reference: string, amount: real)
    | Debited(reference: string, amount: real)

  type AccountEvent = Event<Change>

  /** Account.nil: the replay seed, with no id, a zero balance and version 0. */
  function Nil(): (a: Account)
    ensures a.state.id.None? && a.state.balance == 0.0 && a.version == 0
  {
    Aggregate(AccountState(None, 0.0), 0)
  }

  /** What an event contributes to the balance: a credit adds its amount, a
      debit subtracts it, a creation nothing. */
  function Signed(c: Change): real
  {
    match c
    case Created => 0.0
    case Credited(_, amount) => amount
    case Debited(_, amount) => -amount
  }

  /** Credited amounts minus debited amounts over a history. */
  function Net(es: seq<AccountEvent>): real
  {
    if es == [] then 0.0 else Signed(es[0].payload) + Net(es[1..])
  }

  /** apply_changes of the three event kinds: Created sets the id and keeps the
      balance, Credited and Debited move the balance by their amount and keep
      the id. */
  function ApplyChanges(s: AccountState, id: AggregateId, c: Change): (r: AccountState)
    ensures c.Created? ==> r.id == id && r.balance == s.balance
    ensures c.Credited? ==> r.id == s.id && r.balance == s.balance + c.amount
    ensures c.Debited? ==> r.id == s.id && r.balance == s.balance - c.amount
  {
    match c
    case Created => s.(id := id)
    case Credited(_, amount) => s.(balance := s.balance + amount)
    case Debited(_, amount) => s.(balance := s.balance - amount)
  }

  /** Account.credit: one Credited event for this account, stamped to extend
      its current version; the account itself is a value and stays as it is. */
  function Credit(a: Account, reference: string, amount: real): (es: seq<AccountEvent>)
    ensures |es| == 1 && es[0].aggregateId == a.state.id
    ensures es[0].expectedVersion == a.version + 1
    ensures es[0].payload == Credited(reference, amount)
  {
    [Event(a.version + 1, a.state.id, Credited(reference, amount))]
  }

  /** Account.debit: the symmetric Debited event. */
  function Debit(a: Account, reference: string, amount: real): (es: seq<AccountEvent>)
    ensures |es| == 1 && es[0].aggregateId == a.state.id
    ensures es[0].expectedVersion == a.version + 1
    ensures es[0].payload == Debited(reference, amount)
  {
    [Event(a.version + 1, a.state.id, Debited(reference, amount))]
  }

  /** The balance after a successful fold is the starting balance plus the
      credits and minus the debits of the folded events. */
  lemma {:induction false} FoldBalance(a: Account, es: seq<AccountEvent>)
    requires Fold(ApplyChanges, a, es).Ok?
    ensures Fold(ApplyChanges, a, es).value.state.balance == a.state.balance + Net(es)
    decreases |es|
  {
    if es != [] {
      var b := Apply(ApplyChanges, es[0], a).value;
      FoldBalance(b, es[1..]);
    }
  }

  /** A successful replay's balance is the credits minus the debits of the
      whole history, and its version is the length of the history. */
  lemma ReplayBalance(history: seq<AccountEvent>)
    requires Fold(ApplyChanges, Nil(), history).Ok?
    ensures Fold(ApplyChanges, Nil(), history).value.state.balance == Net(history)
    ensures Fold(ApplyChanges, Nil(), history).value.version == |history|
  {
    FoldBalance(Nil(), history);
  }

  /** The events an account produces for a credit always apply to it: the
      balance grows by the amount and the version by one. */
  lemma ApplyCredit(a: Account, reference: string, amount: real)
    ensures Fold(ApplyChanges, a, Credit(a, reference, amount))
            == Ok(Aggregate(AccountState(a.state.id, a.state.balance + amount), a.version + 1))
  {
    var es := Credit(a, reference, amount);
    assert es[1..] == [];
  }

  /** Likewise for a debit, which lowers the balance by the amount. */
  lemma ApplyDebit(a: Account, reference: string, amount: real)
    ensures Fold(ApplyChanges, a, Debit(a, reference, amount))
            == Ok(Aggregate(AccountState(a.state.id, a.state.balance - amount), a.version + 1))
  {
    var es := Debit(a, reference, amount);
    assert es[1..] == [];
  }

  /** AccountFactory.replay: rebuild an account from its history. */
  method Replay(history: seq<AccountEvent>) returns (r: Result<Account>)
    ensures r == Fold(ApplyChanges, Nil(), history)
    ensures r.Ok? <==> InSequence(0, history)
    ensures r.Ok? ==> r.value.version == |history| && r.value.state.balance == Net(history)
  {
    r := Base.Replay(ApplyChanges, Nil(), history);
    if r.Ok? {
      ReplayBalance(history);
    }
  }

  /** AccountFactory.apply: advance a known account by further events. */
  method ApplyEvents(a: Account, es: seq<AccountEvent>) returns (r: Result<Account>)
    ensures r == Fold(ApplyChanges, a, es)
    ensures r.Ok? <==> InSequence(a.version, es)
    ensures r.Ok? ==> r.value.version == a.version + |es|
    ensures r.Ok? ==> r.value.state.balance == a.state.balance + Net(es)
  {
    r := Base.ApplyEvents(ApplyChanges, a, es);
    if r.Ok? {
      FoldBalance(a, es);
    }
  }
}
