/**
 * The observer pattern of `omakase/observer_logic.py`.
 *
 * Observers are opaque: an `update(observable)` call is recorded as a `Delivery`
 * carrying the value the observer can read at the moment it is called.
 */
module ObserverLogic {
  import opened Wrappers

  type ObserverId = nat

  /** One `observer.update(self)` call, with the value the observable held at that time. */
  datatype Delivery<T> = Delivery(observer: ObserverId, seen: T)

  /** The expected deliveries when every observer of `obs` reads `v`. */
  function DeliveriesOf<T>(obs: seq<ObserverId>, v: T): (r: seq<Delivery<T>>)
    ensures |r| == |obs|
    ensures forall i :: 0 <= i < |obs| ==> r[i] == Delivery(obs[i], v)
  {
    if obs == [] then [] else [Delivery(obs[0], v)] + DeliveriesOf(obs[1..], v)
  }

  /** The `Observable` base class; `observers` is None while `_observers` does not exist. */
  class Observable {
    var observers: Option<seq<ObserverId>>

    function ObserverList(): seq<ObserverId>
      reads this
    {
      observers.GetOr([])
    }

    constructor ()
      ensures observers == None
    {
      observers := None;
    }

    /** `attach`: create the list on first use, then append (duplicates kept). */
    method Attach(o: ObserverId)
      modifies this
      ensures observers == Some(old(ObserverList()) + [o])
    {
      if observers.None? {
        observers := Some([]);
      }
      observers := Some(observers.value + [o]);
    }

    /**
     * `notify`: create the list if missing, then call `update` on every observer once,
     * in attachment order. `current` is the state observers read during their update.
     */
    method Notify<T>(current: T) returns (calls: seq<Delivery<T>>)
      modifies this
      ensures observers == Some(old(ObserverList()))
      ensures calls == DeliveriesOf(ObserverList(), current)
    {
      if observers.None? {
        observers := Some([]);
      }
      var obs := observers.value;
      calls := [];
      for i := 0 to |obs|
        invariant observers == Some(obs)
        invariant calls == DeliveriesOf(obs[..i], current)
      {
        assert obs[..i + 1] == obs[..i] + [obs[i]];
        DeliveriesAppend(obs[..i], obs[i], current);
        calls := calls + [Delivery(obs[i], current)];
      }
      assert obs[..|obs|] == obs;
    }
  }

  lemma {:induction false} DeliveriesAppend<T>(obs: seq<ObserverId>, o: ObserverId, v: T)
    ensures DeliveriesOf(obs + [o], v) == DeliveriesOf(obs, v) + [Delivery(o, v)]
  {
    if obs != [] {
      assert (obs + [o])[1..] == obs[1..] + [o];
      DeliveriesAppend(obs[1..], o, v);
    }
  }

  /** `ObservablePrimitive`: a scalar whose setter stores first, then notifies. */
  class ObservablePrimitive<T> {
    var value: T
    const subject: Observable

    /** Construction stores `data` and notifies nobody. */
    constructor (data: T)
      ensures value == data && fresh(subject) && subject.observers == None
    {
      value := data;
      subject := new Observable();
    }

    method Set(v: T) returns (calls: seq<Delivery<T>>)
      modifies this, subject
      ensures value == v
      ensures subject.observers == Some(old(subject.ObserverList()))
      ensures calls == DeliveriesOf(old(subject.ObserverList()), v)
    {
      value := v;
      calls := subject.Notify(value);
    }
  }

  /** `ObservableList`: built from `None` it holds `[]`; whole-value assignment replaces then notifies. */
  class ObservableList<V> {
    var value: seq<V>
    const subject: Observable

    constructor (data: Option<seq<V>>)
      ensures value == data.GetOr([]) && fresh(subject) && subject.observers == None
    {
      value := data.GetOr([]);
      subject := new Observable();
    }

    method Set(v: seq<V>) returns (calls: seq<Delivery<seq<V>>>)
      modifies this, subject
      ensures value == v
      ensures subject.observers == Some(old(subject.ObserverList()))
      ensures calls == DeliveriesOf(old(subject.ObserverList()), v)
    {
      value := v;
      calls := subject.Notify(value);
    }
  }

  /** `ObservableDict`: built from `None` it holds the empty map; assignment replaces then notifies. */
  class ObservableDict<K(==), V> {
    var value: map<K, V>
    const subject: Observable

    constructor (data: Option<map<K, V>>)
      ensures value == data.GetOr(map[]) && fresh(subject) && subject.observers == None
    {
      value := data.GetOr(map[]);
      subject := new Observable();
    }

    method Set(v: map<K, V>) returns (calls: seq<Delivery<map<K, V>>>)
      modifies this, subject
      ensures value == v
      ensures subject.observers == Some(old(subject.ObserverList()))
      ensures calls == DeliveriesOf(old(subject.ObserverList()), v)
    {
      value := v;
      calls := subject.Notify(value);
    }
  }
}
