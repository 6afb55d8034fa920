/** The in-memory breakers: objects updated in place behind a map, their timeouts kept in a growing buffer. */
module BreakerStore {
  import opened Clock
  import opened Wrappers
  import opened KeyedStore
  import opened CircuitBreaker

  class BreakerObject {
    var state: CircuitState
    var failureCount: nat
    var timeouts: array<Instant>
    var timeoutCount: nat
    var openedAt: Instant
    var halfOpenProbeInUse: bool

    ghost predicate Valid()
      reads this
    {
      timeoutCount <= timeouts.Length
    }

    ghost function View(): Breaker
      reads this, timeouts
      requires Valid()
    {
      Breaker(state, failureCount, timeouts[..timeoutCount], openedAt, halfOpenProbeInUse)
    }

    constructor ()
      ensures Valid() && fresh(timeouts) && View() == FRESH
    {
      state := Closed;
      failureCount := 0;
      timeouts := new Instant[0];
      timeoutCount := 0;
      openedAt := ZERO_TIME;
      halfOpenProbeInUse := false;
    }

    method Allow(openWindow: Duration, now: Instant) returns (ok: bool)
      requires Valid()
      modifies this
      ensures Valid() && timeouts == old(timeouts)
      ensures (View(), ok) == CircuitBreaker.Allow(old(View()), openWindow, now)
    {
      if state == Open {
        if now - openedAt >= openWindow {
          state := HalfOpen;
          halfOpenProbeInUse := true;
          return true;
        }
        return false;
      }
      if state == HalfOpen {
        if halfOpenProbeInUse {
          return false;
        }
        halfOpenProbeInUse := true;
      }
      return true;
    }

    method RecordSuccess()
      requires Valid()
      modifies this
      ensures Valid() && fresh(timeouts)
      ensures View() == CircuitBreaker.RecordSuccess(old(View()))
    {
      state := Closed;
      failureCount := 0;
      timeouts := new Instant[0];
      timeoutCount := 0;
      openedAt := ZERO_TIME;
      halfOpenProbeInUse := false;
    }

    /** Drops the timeouts up to the cutoff, moving the rest down within the same buffer. */
    method Compact(cutoff: Instant)
      requires Valid()
      modifies this`timeoutCount, timeouts
      ensures Valid()
      ensures timeouts[..timeoutCount] == After(old(timeouts[..timeoutCount]), cutoff)
    {
      ghost var was := timeouts[..timeoutCount];
      var kept, count := 0, timeoutCount;
      for i := 0 to count
        invariant timeoutCount == count && kept <= i
        invariant timeouts[..kept] == After(was[..i], cutoff)
        invariant forall j :: i <= j < count ==> timeouts[j] == was[j]
      {
        assert was[..i + 1][..i] == was[..i];
        if timeouts[i] > cutoff {
          timeouts[kept] := timeouts[i];
          kept := kept + 1;
        }
      }
      assert was[..count] == was;
      timeoutCount := kept;
    }

    /** Appends in place while there is room, and to a larger copy otherwise. */
    method Append(now: Instant)
      requires Valid()
      modifies this`timeouts, this`timeoutCount, timeouts
      ensures Valid() && (timeouts == old(timeouts) || fresh(timeouts))
      ensures timeouts[..timeoutCount] == old(timeouts[..timeoutCount]) + [now]
    {
      if timeoutCount == timeouts.Length {
        var buffer, count := timeouts, timeoutCount;
        var larger := new Instant[2 * count + 1];
        for i := 0 to count
          invariant larger[..i] == buffer[..i]
          invariant buffer == old(timeouts) && buffer[..] == old(timeouts[..]) && timeoutCount == count
        {
          larger[i] := buffer[i];
        }
        timeouts := larger;
      }
      timeouts[timeoutCount] := now;
      timeoutCount := timeoutCount + 1;
    }

    method RecordFailure(timedOut: bool, now: Instant)
      requires Valid()
      modifies this, timeouts
      ensures Valid() && (timeouts == old(timeouts) || fresh(timeouts))
      ensures View() == CircuitBreaker.RecordFailure(old(View()), timedOut, now)
    {
      if state == HalfOpen {
        state := Open;
        openedAt := now;
        halfOpenProbeInUse := false;
        return;
      }
      failureCount := failureCount + 1;
      if timedOut {
        Compact(now - TIMEOUT_SPAN);
        Append(now);
      }
      if failureCount >= FAILURE_LIMIT || timeoutCount >= TIMEOUT_LIMIT {
        state := Open;
        openedAt := now;
        halfOpenProbeInUse := false;
      }
    }
  }

  lemma PutTwice<K, V>(m: map<K, V>, key: K, v: V, v': V)
    ensures m[key := v][key := v'] == m[key := v']
  {
  }

  class CircuitBreakerStore {
    var circuits: map<string, BreakerObject>
    /** Which service each breaker object and each buffer belongs to. */
    ghost var Owner: map<object?, string>

    ghost predicate Owned(service: string)
      reads this, Owner.Keys
      requires service in circuits
    {
      var circuit := circuits[service];
      && circuit in Owner && Owner[circuit] == service
      && circuit.timeouts in Owner && Owner[circuit.timeouts] == service
      && circuit.Valid()
    }

    ghost predicate Valid()
      reads this, Owner.Keys
    {
      this !in Owner && forall service :: service in circuits ==> Owned(service)
    }

    ghost function View(): map<string, Breaker>
      reads this, Owner.Keys
      requires Valid()
    {
      map service | service in circuits :: assert Owned(service); circuits[service].View()
    }

    constructor ()
      ensures Valid() && Owner == map[] && View() == map[]
    {
      circuits := map[];
      Owner := map[];
    }

    /** If at most one service's own objects changed or were added, only its entry of the view did. */
    twostate lemma OnlyOneChanged(service: string)
      requires old(Valid()) && this !in Owner
      requires forall o :: o in old(Owner) ==> o in Owner && Owner[o] == old(Owner)[o]
      requires service in circuits && Owned(service) && circuits == old(circuits)[service := circuits[service]]
      requires forall o: object :: o in old(Owner) && old(Owner)[o] != service ==> unchanged(o)
      ensures Valid() && View() == old(View())[service := circuits[service].View()]
    {
      hide BreakerObject.View, BreakerObject.Valid;
      forall s | s in circuits && s != service
        ensures Owned(s) && circuits[s] == old(circuits)[s] && circuits[s].View() == old(circuits[s].View())
      {
        assert old(Owned(s));
      }
    }

    method GetLocked(service: string) returns (circuit: BreakerObject)
      requires Valid()
      modifies this
      ensures Valid() && service in circuits && circuits[service] == circuit
      ensures fresh(Owner.Keys - old(Owner.Keys))
      ensures View() == old(View())[service := Current(old(View()), service)]
    {
      hide BreakerObject.View, BreakerObject.Valid;
      if service in circuits {
        assert Owned(service);
        return circuits[service];
      }
      circuit := new BreakerObject();
      Register(service, circuit);
    }

    method Register(service: string, circuit: BreakerObject)
      requires Valid() && service !in circuits && circuit.Valid()
      requires circuit !in Owner && circuit.timeouts !in Owner
      modifies this
      ensures Valid() && circuits == old(circuits)[service := circuit]
      ensures Owner == old(Owner)[circuit := service][circuit.timeouts := service]
      ensures View() == old(View())[service := circuit.View()]
    {
      hide BreakerObject.View, BreakerObject.Valid;
      assert this !in Owner;
      hide Valid, View;
      circuits := circuits[service := circuit];
      Owner := Owner[circuit := service][circuit.timeouts := service];
      OnlyOneChanged(service);
    }

    method Allow(service: string, openWindow: Duration, now: Instant) returns (ok: bool)
      requires Valid()
      modifies this, Owner.Keys
      ensures Valid() && fresh(Owner.Keys - old(Owner.Keys))
      ensures var (circuit', ok') := CircuitBreaker.Allow(Current(old(View()), service), openWindow, now);
              ok == ok' && View() == old(View())[service := circuit']
    {
      hide BreakerObject.View, BreakerObject.Valid, Current, CircuitBreaker.Allow;
      ghost var v := View();
      var circuit := GetLocked(service);
      assert Owned(service) && View()[service] == circuit.View() && this !in Owner;
      hide Valid, View;
      ghost var c := circuit.View();
      assert View() == v[service := c] && c == Current(v, service);
      label got:
      ok := circuit.Allow(openWindow, now);
      OnlyOneChanged@got(service);
      PutTwice(v, service, c, circuit.View());
    }

    method SucceedOwned(service: string)
      requires service in circuits && Owned(service)
      modifies `Owner, circuits[service]
      ensures Owned(service) && fresh(Owner.Keys - old(Owner.Keys))
      ensures forall o :: o in old(Owner) ==> o in Owner && Owner[o] == old(Owner)[o]
      ensures circuits[service].View() == CircuitBreaker.RecordSuccess(old(circuits[service].View()))
    {
      hide CircuitBreaker.RecordSuccess, BreakerObject.View;
      circuits[service].RecordSuccess();
      Owner := Owner[circuits[service].timeouts := service];
    }

    method RecordSuccess(service: string)
      requires Valid()
      modifies this, Owner.Keys
      ensures Valid() && fresh(Owner.Keys - old(Owner.Keys))
      ensures View() == old(View())[service := CircuitBreaker.RecordSuccess(Current(old(View()), service))]
    {
      hide BreakerObject.View, BreakerObject.Valid, Current, CircuitBreaker.RecordSuccess;
      ghost var v := View();
      var circuit := GetLocked(service);
      assert Owned(service) && View()[service] == circuit.View() && this !in Owner;
      hide Valid, View;
      ghost var c := circuit.View();
      assert View() == v[service := c] && c == Current(v, service);
      label got:
      SucceedOwned(service);
      OnlyOneChanged@got(service);
      PutTwice(v, service, c, circuit.View());
    }

    method FailOwned(service: string, timedOut: bool, now: Instant)
      requires service in circuits && Owned(service)
      modifies `Owner, circuits[service], circuits[service].timeouts
      ensures Owned(service) && fresh(Owner.Keys - old(Owner.Keys))
      ensures forall o :: o in old(Owner) ==> o in Owner && Owner[o] == old(Owner)[o]
      ensures circuits[service].View() == CircuitBreaker.RecordFailure(old(circuits[service].View()), timedOut, now)
    {
      hide CircuitBreaker.RecordFailure, BreakerObject.View;
      circuits[service].RecordFailure(timedOut, now);
      Owner := Owner[circuits[service].timeouts := service];
    }

    method RecordFailure(service: string, timedOut: bool, now: Instant)
      requires Valid()
      modifies this, Owner.Keys
      ensures Valid() && fresh(Owner.Keys - old(Owner.Keys))
      ensures View() == old(View())[service := CircuitBreaker.RecordFailure(Current(old(View()), service), timedOut, now)]
    {
      hide BreakerObject.View, BreakerObject.Valid, Current, CircuitBreaker.RecordFailure;
      ghost var v := View();
      var circuit := GetLocked(service);
      assert Owned(service) && View()[service] == circuit.View() && this !in Owner;
      hide Valid, View;
      ghost var c := circuit.View();
      assert View() == v[service := c] && c == Current(v, service);
      label got:
      FailOwned(service, timedOut, now);
      OnlyOneChanged@got(service);
      PutTwice(v, service, c, circuit.View());
    }
  }
}
