/**
 * `Event<T>` of `src/event.rs`: a registry of callbacks keyed by the id `subscribe`
 * hands out. A callback is an opaque value of type `F` here; `emit` returns the calls
 * it makes, one per subscriber, instead of running them.
 */
module Events {

  /** One callback invocation made by `emit`. */
  datatype Call<T, F> = Call(id: nat, callback: F, payload: T)

  class Event<T, F(==)> {
    var subscribers: map<nat, F>
    var nextId: nat
    /** Every id `subscribe` has returned so far. */
    ghost var issued: set<nat>

    /** Ids handed out are exactly those below `next_id`, and only those can be subscribed. */
    ghost predicate Valid()
      reads this
    {
      && (forall id: nat :: id in issued <==> id < nextId)
      && subscribers.Keys <= issued
    }

    /** `new`: no subscribers, and the first id is 0. */
    constructor()
      ensures Valid()
      ensures subscribers == map[] && nextId == 0 && issued == {}
    {
      subscribers := map[];
      nextId := 0;
      issued := {};
    }

    /** `subscribe`: registers the callback under a fresh id and returns it. */
    method Subscribe(callback: F) returns (id: nat)
      requires Valid()
      modifies this
      ensures Valid()
      ensures id == old(nextId) && nextId == old(nextId) + 1
      ensures id !in old(issued) && issued == old(issued) + {id}
      ensures id !in old(subscribers)
      ensures subscribers == old(subscribers)[id := callback]
    {
      id := nextId;
      subscribers := subscribers[id := callback];
      nextId := nextId + 1;
      issued := issued + {id};
    }

    /** `unsubscribe`: removes that id and nothing else; an unknown id changes nothing. */
    method Unsubscribe(id: nat)
      requires Valid()
      modifies this
      ensures Valid()
      ensures subscribers == old(subscribers) - {id}
      ensures id !in old(subscribers) ==> subscribers == old(subscribers)
      ensures nextId == old(nextId) && issued == old(issued)
    {
      subscribers := subscribers - {id};
    }

    /**
     * `emit`: calls every current subscriber once with a copy of the payload. The order
     * of a `HashMap` walk is unspecified, so the next id is picked nondeterministically.
     */
    method Emit(payload: T) returns (calls: seq<Call<T, F>>)
      ensures |calls| == |subscribers|
      ensures forall k :: 0 <= k < |calls| ==>
                calls[k].id in subscribers && calls[k].callback == subscribers[calls[k].id] && calls[k].payload == payload
      ensures forall k, l :: 0 <= k < l < |calls| ==> calls[k].id != calls[l].id
      ensures forall id :: id in subscribers ==> exists k :: 0 <= k < |calls| && calls[k].id == id
    {
      calls := [];
      var pending := subscribers.Keys;
      while pending != {}
        invariant pending <= subscribers.Keys
        invariant |calls| + |pending| == |subscribers|
        invariant forall k :: 0 <= k < |calls| ==>
                    calls[k].id in subscribers && calls[k].id !in pending
                    && calls[k].callback == subscribers[calls[k].id] && calls[k].payload == payload
        invariant forall k, l :: 0 <= k < l < |calls| ==> calls[k].id != calls[l].id
        invariant forall id :: id in subscribers && id !in pending ==> exists k :: 0 <= k < |calls| && calls[k].id == id
        decreases |pending|
      {
        var id :| id in pending;
        ghost var before := calls;
        calls := calls + [Call(id, subscribers[id], payload)];
        assert forall k :: 0 <= k < |before| ==> calls[k] == before[k];
        assert calls[|before|].id == id;
        pending := pending - {id};
      }
    }
  }

  /** An id given up with `unsubscribe` is not handed out again by the next `subscribe`. */
  method IdNotReusedAfterUnsubscribe<T, F(==)>(f: F, g: F) returns (first: nat, second: nat)
    ensures first != second
  {
    var e := new Event<T, F>();
    first := e.Subscribe(f);
    e.Unsubscribe(first);
    second := e.Subscribe(g);
  }
}
