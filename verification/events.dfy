/** The in-memory event store: append-only streams keyed by topic and
    aggregate id, and per-topic subscribers notified on every append. */
module EventStore {
  import opened Base

  type Topic = string

  /** A registered subscriber. Handlers are callables outside this model; a
      handler is known here only by its name, and what it does when called
      is not modelled beyond whether it raises KeyError. */
  datatype Handler = Handler(name: string)

  /** One invocation of a handler with an event. */
  datatype Call<P> = Call(handler: Handler, event: Event<P>)

  /** The stored streams: topic, then aggregate id, then events in append order. */
  type History<P> = map<Topic, map<AggregateId, seq<Event<P>>>>

  /** InMemoryEventStore.get on a history: the stored stream, or the empty
      stream when the topic or the id is unknown. */
  function Lookup<P>(h: History<P>, t: Topic, id: AggregateId): seq<Event<P>>
  {
    if t in h && id in h[t] then h[t][id] else []
  }

  /** No stream is stored empty: a key exists only once an event was added. */
  ghost predicate NoEmptyStreams<P>(h: History<P>)
  {
    forall t, id :: t in h && id in h[t] ==> h[t][id] != []
  }

  /** The history after storing `e` under topic `t`: its own stream grows by
      `e`, every other (topic, id) stream stays as it was. */
  function Append<P>(h: History<P>, t: Topic, e: Event<P>): (r: History<P>)
    ensures Lookup(r, t, e.aggregateId) == Lookup(h, t, e.aggregateId) + [e]
    ensures forall t', id :: (t' != t || id != e.aggregateId) ==> Lookup(r, t', id) == Lookup(h, t', id)
    ensures NoEmptyStreams(h) ==> NoEmptyStreams(r)
  {
    var streams := if t in h then h[t] else map[];
    h[t := streams[e.aggregateId := Lookup(h, t, e.aggregateId) + [e]]]
  }

  /** The history after storing each event of `es` in order under topic `t`. */
  function AppendAll<P>(h: History<P>, t: Topic, es: seq<Event<P>>): History<P>
    decreases |es|
  {
    if es == [] then h else AppendAll(Append(h, t, es[0]), t, es[1..])
  }

  /** The events of `es` that name aggregate `id`, in order. */
  function Filter<P>(es: seq<Event<P>>, id: AggregateId): (r: seq<Event<P>>)
  {
    if es == [] then []
    else (if es[0].aggregateId == id then [es[0]] else []) + Filter(es[1..], id)
  }

  /** Appending the events of `es` from index `i` on: the first of them,
      then the rest. */
  lemma AppendAllFrom<P>(h: History<P>, t: Topic, es: seq<Event<P>>, i: nat)
    requires i < |es|
    ensures AppendAll(h, t, es[i..]) == AppendAll(Append(h, t, es[i]), t, es[i + 1..])
  {
    assert es[i..][0] == es[i] && es[i..][1..] == es[i + 1..];
  }

  /** Appending a list of events extends each stream of topic `t` by exactly
      the listed events that name it, in list order; other topics stay as
      they were. */
  lemma {:induction false} AppendAllLookup<P>(h: History<P>, t: Topic, es: seq<Event<P>>, t': Topic, id: AggregateId)
    ensures Lookup(AppendAll(h, t, es), t', id) == Lookup(h, t', id) + (if t' == t then Filter(es, id) else [])
    decreases |es|
  {
    if es != [] {
      AppendAllLookup(Append(h, t, es[0]), t, es[1..], t', id);
    }
  }

  /** Appending events keeps every stored stream non-empty. */
  lemma {:induction false} AppendAllNoEmptyStreams<P>(h: History<P>, t: Topic, es: seq<Event<P>>)
    requires NoEmptyStreams(h)
    ensures NoEmptyStreams(AppendAll(h, t, es))
    decreases |es|
  {
    if es != [] {
      AppendAllNoEmptyStreams(Append(h, t, es[0]), t, es[1..]);
    }
  }

  /** The handler calls that `add` makes for `e`: the topic's handlers in
      registration order, each once, up to and including the first one that
      raises KeyError; the KeyError ends the loop and is swallowed. */
  function Notified<P>(hs: seq<Handler>, e: Event<P>, raises: (Handler, Event<P>) -> bool): seq<Call<P>>
    decreases |hs|
  {
    if hs == [] then []
    else if raises(hs[0], e) then [Call(hs[0], e)]
    else [Call(hs[0], e)] + Notified(hs[1..], e, raises)
  }

  /** One turn of the notification loop: the call to handler `i`, followed
      by the later calls unless it raised. */
  lemma NotifiedStep<P>(hs: seq<Handler>, i: nat, e: Event<P>, raises: (Handler, Event<P>) -> bool)
    requires i < |hs|
    ensures Notified(hs[i..], e, raises) ==
            [Call(hs[i], e)] + (if raises(hs[i], e) then [] else Notified(hs[i + 1..], e, raises))
  {
    assert hs[i..][0] == hs[i] && hs[i..][1..] == hs[i + 1..];
  }

  /** The calls go to a prefix of the handlers, in registration order, with
      `e` each time; only the last of them may raise, and the prefix falls
      short of all handlers only when that last one raised. */
  lemma {:induction false} NotifiedPrefix<P>(hs: seq<Handler>, e: Event<P>, raises: (Handler, Event<P>) -> bool)
    ensures |Notified(hs, e, raises)| <= |hs|
    ensures forall i :: 0 <= i < |Notified(hs, e, raises)| ==> Notified(hs, e, raises)[i] == Call(hs[i], e)
    ensures forall i :: 0 <= i < |Notified(hs, e, raises)| - 1 ==> !raises(hs[i], e)
    ensures |Notified(hs, e, raises)| < |hs| ==>
              0 < |Notified(hs, e, raises)| && raises(hs[|Notified(hs, e, raises)| - 1], e)
    decreases |hs|
  {
    if hs != [] && !raises(hs[0], e) {
      NotifiedPrefix(hs[1..], e, raises);
    }
  }

  /** When no handler raises, every handler of the topic is called exactly
      once with the event, in registration order. */
  lemma {:induction false} NotifiedAll<P>(hs: seq<Handler>, e: Event<P>, raises: (Handler, Event<P>) -> bool)
    requires forall i :: 0 <= i < |hs| ==> !raises(hs[i], e)
    ensures Notified(hs, e, raises) == seq(|hs|, i requires 0 <= i < |hs| => Call(hs[i], e))
    decreases |hs|
  {
    if hs != [] {
      assert forall i :: 0 <= i < |hs[1..]| ==> hs[1..][i] == hs[i + 1];
      NotifiedAll(hs[1..], e, raises);
    }
  }

  /** The handler calls made while adding each event of `es` in turn. */
  function Broadcast<P>(hs: seq<Handler>, es: seq<Event<P>>, raises: (Handler, Event<P>) -> bool): seq<Call<P>>
    decreases |es|
  {
    if es == [] then [] else Notified(hs, es[0], raises) + Broadcast(hs, es[1..], raises)
  }

  /** The handler calls for the events of `es` from index `i` on: those for
      the first of them, then those for the rest. */
  lemma BroadcastFrom<P>(hs: seq<Handler>, es: seq<Event<P>>, i: nat, raises: (Handler, Event<P>) -> bool)
    requires i < |es|
    ensures Broadcast(hs, es[i..], raises) == Notified(hs, es[i], raises) + Broadcast(hs, es[i + 1..], raises)
  {
    assert es[i..][0] == es[i] && es[i..][1..] == es[i + 1..];
  }

  /** With a single handler that never raises, adding a list of events calls
      it once per event, in list order. */
  lemma {:induction false} BroadcastSingle<P>(h: Handler, es: seq<Event<P>>, raises: (Handler, Event<P>) -> bool)
    requires forall i :: 0 <= i < |es| ==> !raises(h, es[i])
    ensures Broadcast([h], es, raises) == seq(|es|, i requires 0 <= i < |es| => Call(h, es[i]))
    decreases |es|
  {
    if es != [] {
      assert [h][1..] == [];
      assert Notified([h], es[0], raises) == [Call(h, es[0])];
      BroadcastSingle(h, es[1..], raises);
    }
  }

  class InMemoryEventStore<P> {
    var history: History<P>
    var topicHandlers: map<Topic, seq<Handler>>
    /** Every handler call made so far, oldest first. */
    ghost var calls: seq<Call<P>>
    /** Whether a handler raises KeyError when called with an event: the one
        outcome of a foreign handler that the store reacts to. */
    const raises: (Handler, Event<P>) -> bool

    ghost predicate Valid()
      reads this
    {
      NoEmptyStreams(history)
    }

    /** The handlers registered for topic `t`, in registration order. */
    function HandlersOf(t: Topic): seq<Handler>
      reads this
    {
      if t in topicHandlers then topicHandlers[t] else []
    }

    constructor (raises: (Handler, Event<P>) -> bool)
      ensures Valid()
      ensures history == map[] && topicHandlers == map[] && calls == []
      ensures this.raises == raises
    {
      history := map[];
      topicHandlers := map[];
      calls := [];
      this.raises := raises;
    }

    /** add: store the event first, then call the topic's handlers; a topic
        with no handlers, or a handler raising KeyError, ends the
        notification without an error. */
    method Add(t: Topic, e: Event<P>)
      requires Valid()
      modifies this
      ensures Valid()
      ensures history == Append(old(history), t, e)
      ensures topicHandlers == old(topicHandlers)
      ensures calls == old(calls) + Notified(HandlersOf(t), e, raises)
    {
      history := Append(history, t, e);
      var hs := if t in topicHandlers then topicHandlers[t] else [];
      Notify(hs, e);
    }

    /** The notification loop of add: call each handler of `hs` in order
        with `e`, stopping after the first that raises KeyError. */
    method Notify(hs: seq<Handler>, e: Event<P>)
      modifies this
      ensures history == old(history) && topicHandlers == old(topicHandlers)
      ensures calls == old(calls) + Notified(hs, e, raises)
    {
      var i := 0;
      while i < |hs|
        invariant 0 <= i <= |hs|
        invariant history == old(history) && topicHandlers == old(topicHandlers)
        invariant calls + Notified(hs[i..], e, raises) == old(calls) + Notified(hs, e, raises)
      {
        NotifiedStep(hs, i, e, raises);
        ghost var before := calls;
        calls := calls + [Call(hs[i], e)];
        if raises(hs[i], e) {
          assert Notified(hs[i..], e, raises) == [Call(hs[i], e)];
          return;
        }
        assert before + Notified(hs[i..], e, raises) == calls + Notified(hs[i + 1..], e, raises);
        i := i + 1;
      }
      assert hs[i..] == [];
    }

    /** get: the stored stream, empty for an unknown topic or id. */
    method Get(t: Topic, id: AggregateId) returns (es: seq<Event<P>>)
      ensures es == Lookup(history, t, id)
    {
      var streams := if t in history then history[t] else map[];
      es := if id in streams then streams[id] else [];
    }

    /** exists: whether an event was ever added for `id` under topic `t`,
        that is, whether its stream is non-empty. */
    method Exists(t: Topic, id: AggregateId) returns (b: bool)
      requires Valid()
      ensures b <==> Lookup(history, t, id) != []
    {
      var streams := if t in history then history[t] else map[];
      b := id in streams;
    }

    /** register: subscribe `h` to the later adds on topic `t`, after the
        handlers already registered; nothing is delivered for past events. */
    method Register(t: Topic, h: Handler)
      modifies this
      ensures topicHandlers == old(topicHandlers)[t := old(HandlersOf(t)) + [h]]
      ensures history == old(history) && calls == old(calls)
    {
      var hs := if t in topicHandlers then topicHandlers[t] else [];
      topicHandlers := topicHandlers[t := hs + [h]];
    }
  }
}
