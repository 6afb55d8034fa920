/** The in-memory transaction guard: per-user records, updated in place, behind a map. */
module GuardStore {
  import opened Clock
  import opened Wrappers
  import opened KeyedStore
  import opened TransactionGuard

  class UserRecord {
    var lastTransactionAt: Option<Instant>
    var dailyDate: Option<int>
    var dailyCount: nat

    ghost function View(): GuardState
      reads this
    {
      GuardState(lastTransactionAt, dailyDate, dailyCount)
    }

    constructor ()
      ensures View() == GuardState(None, None, 0)
    {
      lastTransactionAt := None;
      dailyDate := None;
      dailyCount := 0;
    }

    method Judge(cooldown: Duration, dailyLimit: int, now: Instant, today: int) returns (verdict: GuardVerdict)
      modifies this
      ensures (Some(View()), verdict)
           == TransactionGuard.Allow(Some(old(View())), cooldown, dailyLimit, GuardCall(now, today))
    {
      var limit := dailyLimit;
      if limit <= 0 {
        limit := 10;
      }
      if dailyDate != Some(today) {
        dailyDate := Some(today);
        dailyCount := 0;
      }
      if lastTransactionAt.Some? {
        var nextAllowed := lastTransactionAt.value + cooldown;
        if now < nextAllowed {
          return CoolingDown(nextAllowed - now);
        }
      }
      if dailyCount >= limit {
        return DailyLimitReached(HOUR);
      }
      lastTransactionAt := Some(now);
      dailyCount := dailyCount + 1;
      return Admitted;
    }
  }

  class TransactionGuardStore {
    var users: map<string, UserRecord>

    ghost predicate Valid()
      reads this
    {
      forall u, u' :: u in users && u' in users && u != u' ==> users[u] != users[u']
    }

    ghost function View(): map<string, GuardState>
      reads this, users.Values
    {
      map user | user in users :: users[user].View()
    }

    constructor ()
      ensures Valid() && View() == map[] && users == map[]
    {
      users := map[];
    }

    method Allow(userID: string, cooldown: Duration, dailyLimit: int, now: Instant, today: int) returns (verdict: GuardVerdict)
      requires Valid()
      modifies this, users.Values
      ensures Valid() && fresh(users.Values - old(users.Values))
      ensures var (state', verdict') :=
                TransactionGuard.Allow(Lookup(old(View()), userID), cooldown, dailyLimit, GuardCall(now, today));
              verdict == verdict' && View() == Put(old(View()), userID, state')
    {
      ghost var before := View();
      if userID !in users {
        var record := new UserRecord();
        users := users[userID := record];
      }
      verdict := users[userID].Judge(cooldown, dailyLimit, now, today);
      assert View() == before[userID := users[userID].View()];
    }
  }
}
