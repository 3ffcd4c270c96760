/** The event/aggregate protocol shared by every aggregate kind: an event names
    the version it expects to be applied against, and an aggregate is rebuilt
    by folding its history through the version-checked Apply. */
module Base {

  /** Aggregate ids are compared only for equality. */
  type Uuid = nat

  datatype Option<+T> = None | Some(value: T)

  /** The id an event names. An aggregate that has not been created yet has no
      id, and the events it produces carry that missing id along. */
  type AggregateId = Option<Uuid>

  /** An event: the version it expects to extend, the aggregate it belongs to,
      and the kind-specific payload. */
  datatype Event<P> = Event(expectedVersion: int, aggregateId: AggregateId, payload: P)

  /** An aggregate value: its domain state and the number of events applied. */
  datatype Aggregate<S> = Aggregate(state: S, version: int)

  /** The outcome of applying events: the new aggregate or a version conflict. */
  datatype Result<T> = Ok(value: T) | VersionConflict

  /** The events of `es` expect versions v + 1, v + 2, ... in order. */
  ghost predicate InSequence<P>(v: int, es: seq<Event<P>>)
  {
    forall i :: 0 <= i < |es| ==> es[i].expectedVersion == v + i + 1
  }

  /** Event.apply: refuse the event unless it extends exactly the aggregate's
      version; otherwise produce a new aggregate with the kind-specific changes
      and the version advanced by one. `changes` (apply_changes) sees the
      aggregate id and payload but never the expected version. The argument
      `a` is a value, so the caller's aggregate is never altered. */
  function Apply<S, P>(changes: (S, AggregateId, P) -> S, e: Event<P>, a: Aggregate<S>): (r: Result<Aggregate<S>>)
    ensures r.VersionConflict? <==> e.expectedVersion != a.version + 1
    ensures r.Ok? ==> r.value.version == a.version + 1
    ensures r.Ok? ==> r.value.state == changes(a.state, e.aggregateId, e.payload)
  {
    if e.expectedVersion != a.version + 1 then VersionConflict
    else Ok(Aggregate(changes(a.state, e.aggregateId, e.payload), a.version + 1))
  }

  /** The fold of `es` through Apply, starting from `a`; the first conflict
      ends the fold. It succeeds exactly when the events are numbered
      contiguously after `a`'s version, and then adds |es| to the version. */
  function Fold<S, P>(changes: (S, AggregateId, P) -> S, a: Aggregate<S>, es: seq<Event<P>>): (r: Result<Aggregate<S>>)
    ensures r.Ok? <==> InSequence(a.version, es)
    ensures r.Ok? ==> r.value.version == a.version + |es|
    decreases |es|
  {
    if es == [] then Ok(a)
    else
      var rest := es[1..];
      assert forall i :: 0 <= i < |rest| ==> rest[i] == es[i + 1];
      match Apply(changes, es[0], a)
      case VersionConflict => VersionConflict
      case Ok(b) => Fold(changes, b, rest)
  }

  /** Folding a concatenation folds the first part and continues from its
      result; a conflict in the first part is a conflict of the whole. */
  lemma {:induction false} FoldAppend<S, P>(changes: (S, AggregateId, P) -> S, a: Aggregate<S>, xs: seq<Event<P>>, ys: seq<Event<P>>)
    ensures Fold(changes, a, xs + ys) ==
            match Fold(changes, a, xs)
            case VersionConflict => VersionConflict
            case Ok(b) => Fold(changes, b, ys)
    decreases |xs|
  {
    if xs == [] {
      assert xs + ys == ys;
    } else {
      assert (xs + ys)[0] == xs[0];
      assert (xs + ys)[1..] == xs[1..] + ys;
      match Apply(changes, xs[0], a)
      case VersionConflict =>
      case Ok(b) => FoldAppend(changes, b, xs[1..], ys);
    }
  }

  /** Factory.apply: advance an existing aggregate by `es`, one event at a
      time, stopping at the first version conflict. */
  method ApplyEvents<S, P>(changes: (S, AggregateId, P) -> S, a: Aggregate<S>, es: seq<Event<P>>) returns (r: Result<Aggregate<S>>)
    ensures r == Fold(changes, a, es)
  {
    var aggregate := a;
    var i := 0;
    while i < |es|
      invariant 0 <= i <= |es|
      invariant Fold(changes, a, es) == Fold(changes, aggregate, es[i..])
    {
      assert es[i..][0] == es[i] && es[i..][1..] == es[i + 1..];
      var next := Apply(changes, es[i], aggregate);
      if next.VersionConflict? {
        return VersionConflict;
      }
      aggregate := next.value;
      i := i + 1;
    }
    assert es[i..] == [];
    return Ok(aggregate);
  }

  /** Factory.replay: rebuild an aggregate from its whole history, starting
      from the kind's nil value. */
  method Replay<S, P>(changes: (S, AggregateId, P) -> S, nil: Aggregate<S>, es: seq<Event<P>>) returns (r: Result<Aggregate<S>>)
    ensures r == Fold(changes, nil, es)
  {
    r := ApplyEvents(changes, nil, es);
  }
}
