/** A store that keeps one independent state machine per key: the shape shared by the
    limiter (per user and route class), the guard (per user) and the breaker (per service).
    A machine sees `None` when its key has no entry yet. */
module KeyedStore {
  import opened Wrappers

  type Machine<!S, !I, !O> = (Option<S>, I) -> (Option<S>, O)

  function Lookup<K, S>(store: map<K, S>, key: K): Option<S> {
    if key in store then Some(store[key]) else None
  }

  function Put<K, S>(store: map<K, S>, key: K, state: Option<S>): map<K, S> {
    match state
    case Some(s) => store[key := s]
    case None => store - {key}
  }

  /** Serving a list of (key, input) calls on the whole store, left to right. */
  function Serve<K, S, I, O>(machine: Machine<S, I, O>, store: map<K, S>, calls: seq<(K, I)>): (r: (map<K, S>, seq<O>))
    ensures |r.1| == |calls|
    decreases calls
  {
    if calls == [] then (store, [])
    else
      var (key, input) := calls[0];
      var (state, output) := machine(Lookup(store, key), input);
      var (store', outputs) := Serve(machine, Put(store, key, state), calls[1..]);
      (store', [output] + outputs)
  }

  /** Serving a list of inputs on one machine. */
  function ServeOne<S, I, O>(machine: Machine<S, I, O>, state: Option<S>, inputs: seq<I>): (Option<S>, seq<O>)
    decreases inputs
  {
    if inputs == [] then (state, [])
    else
      var (state', output) := machine(state, inputs[0]);
      var (final, outputs) := ServeOne(machine, state', inputs[1..]);
      (final, [output] + outputs)
  }

  function InputsFor<K(==), I>(calls: seq<(K, I)>, key: K): seq<I> {
    if calls == [] then []
    else (if calls[0].0 == key then [calls[0].1] else []) + InputsFor(calls[1..], key)
  }

  function OutputsFor<K(==), I, O>(calls: seq<(K, I)>, outputs: seq<O>, key: K): seq<O>
    requires |calls| == |outputs|
  {
    if calls == [] then []
    else (if calls[0].0 == key then [outputs[0]] else []) + OutputsFor(calls[1..], outputs[1..], key)
  }

  /** Whatever the interleaving of keys, a key's answers and its final state are those of its own calls alone. */
  lemma {:induction false} KeysAreIsolated<K, S, I, O>(machine: Machine<S, I, O>, store: map<K, S>, calls: seq<(K, I)>, key: K)
    ensures var (store', outputs) := Serve(machine, store, calls);
            (Lookup(store', key), OutputsFor(calls, outputs, key))
            == ServeOne(machine, Lookup(store, key), InputsFor(calls, key))
    decreases calls
  {
    if calls != [] {
      var (k, input) := calls[0];
      var (state, output) := machine(Lookup(store, k), input);
      var rest := Serve(machine, Put(store, k, state), calls[1..]);
      KeysAreIsolated(machine, Put(store, k, state), calls[1..], key);
      assert Serve(machine, store, calls).1[1..] == rest.1;
      if k == key {
        assert InputsFor(calls, key)[1..] == InputsFor(calls[1..], key);
      } else {
        assert InputsFor(calls, key) == InputsFor(calls[1..], key);
        assert OutputsFor(calls, Serve(machine, store, calls).1, key) == OutputsFor(calls[1..], rest.1, key);
      }
    }
  }
}
