/** The balance cache: an in-memory store and its Redis twin, which reports refusals as negative numbers. */
module Wallet {
  import opened Wrappers

  datatype Fault = NegativeAmount | NotCached | Insufficient

  type Balances = map<string, int>

  /** A reservation is granted exactly when the account is cached with at least `amount`. */
  function Reserved(m: Balances, account: string, amount: int): (Balances, Result<int, Fault>) {
    if amount <= 0 then (m, Err(NegativeAmount))
    else if account !in m then (m, Err(NotCached))
    else if m[account] < amount then (m, Err(Insufficient))
    else (m[account := m[account] - amount], Ok(m[account] - amount))
  }

  function Released(m: Balances, account: string, amount: int): (Balances, Result<int, Fault>) {
    if amount <= 0 then (m, Err(NegativeAmount))
    else if account !in m then (m, Err(NotCached))
    else (m[account := m[account] + amount], Ok(m[account] + amount))
  }

  /** A reservation is granted exactly from a cached balance that covers it, and takes it from there; each refusal has
      its own cause and changes nothing. */
  lemma ReservedIff(m: Balances, account: string, amount: int)
    ensures var (after, r) := Reserved(m, account, amount);
            && (r.Ok? <==> amount > 0 && account in m && amount <= m[account])
            && (r.Ok? ==> after == m[account := r.value] && r.value + amount == m[account])
            && (r.Err? ==> after == m)
            && (r == Err(NegativeAmount) <==> amount <= 0)
            && (r == Err(NotCached) <==> amount > 0 && account !in m)
            && (r == Err(Insufficient) <==> amount > 0 && account in m && m[account] < amount)
  {
  }

  lemma ReleasedIff(m: Balances, account: string, amount: int)
    ensures var (after, r) := Released(m, account, amount);
            && (r.Ok? <==> amount > 0 && account in m)
            && (r.Ok? ==> after == m[account := r.value] && r.value - amount == m[account])
            && (r.Err? ==> after == m && r.error == if amount <= 0 then NegativeAmount else NotCached)
  {
  }

  /** `wallet.Memory`: a map of balances updated in place. */
  class Memory {
    var balances: Balances

    constructor ()
      ensures balances == map[]
    {
      balances := map[];
    }

    method Warm(account: string, balance: int)
      modifies this
      ensures balances == old(balances)[account := balance]
    {
      balances := balances[account := balance];
    }

    method Invalidate(account: string)
      modifies this
      ensures balances == old(balances) - {account}
    {
      balances := balances - {account};
    }

    method Available(account: string) returns (r: Result<int, Fault>)
      ensures r == if account in balances then Ok(balances[account]) else Err(NotCached)
    {
      if account !in balances {
        return Err(NotCached);
      }
      return Ok(balances[account]);
    }

    method Reserve(account: string, amount: int) returns (r: Result<int, Fault>)
      modifies this
      ensures (balances, r) == Reserved(old(balances), account, amount)
    {
      if amount <= 0 {
        return Err(NegativeAmount);
      }
      if account !in balances {
        return Err(NotCached);
      }
      var balance := balances[account];
      if balance < amount {
        return Err(Insufficient);
      }
      balances := balances[account := balance - amount];
      return Ok(balances[account]);
    }

    method Release(account: string, amount: int) returns (r: Result<int, Fault>)
      modifies this
      ensures (balances, r) == Released(old(balances), account, amount)
    {
      if amount <= 0 {
        return Err(NegativeAmount);
      }
      if account !in balances {
        return Err(NotCached);
      }
      balances := balances[account := balances[account] + amount];
      return Ok(balances[account]);
    }
  }

  // Many callers.

  /** What a list of reservation requests on one account is granted in total, served in any one order. */
  function Granted(m: Balances, account: string, requests: seq<int>): (int, Balances)
    decreases |requests|
  {
    if requests == [] then (0, m)
    else
      var (next, r) := Reserved(m, account, requests[0]);
      var (rest, last) := Granted(next, account, requests[1..]);
      ((if r.Ok? then requests[0] else 0) + rest, last)
  }

  /** However requests interleave, what is granted comes out of the balance one for one and the balance
      never goes below zero; when every request asks for one unit the grants number the smaller of
      the requests and the balance. */
  lemma {:induction false} NeverOverspends(m: Balances, account: string, requests: seq<int>)
    requires account in m && m[account] >= 0
    ensures var (total, last) := Granted(m, account, requests);
            && account in last && last[account] >= 0
            && total + last[account] == m[account]
            && last - {account} == m - {account}
            && ((forall q <- requests :: q == 1) ==>
                  total == if |requests| < m[account] then |requests| else m[account])
    decreases |requests|
  {
    if requests != [] {
      var (next, r) := Reserved(m, account, requests[0]);
      NeverOverspends(next, account, requests[1..]);
      assert next - {account} == m - {account};
      assert requests[0] in requests && forall q <- requests[1..] :: q in requests;
    }
  }

  /** Giving a reservation back restores the whole cache, unless the entry was dropped in between. */
  lemma ReleaseUndoesReserve(m: Balances, account: string, amount: int)
    requires Reserved(m, account, amount).1.Ok?
    ensures Released(Reserved(m, account, amount).0, account, amount) == (m, Ok(m[account]))
    ensures var dropped := Reserved(m, account, amount).0 - {account};
            Released(dropped, account, amount) == (dropped, Err(NotCached))
  {
    assert Reserved(m, account, amount).0[account := m[account]] == m;
  }

  // The Redis twin.

  const RESULT_NOT_CACHED := -2
  const RESULT_INSUFFICIENT := -1

  function Decode(res: int): Result<int, Fault> {
    if res == RESULT_NOT_CACHED then Err(NotCached)
    else if res == RESULT_INSUFFICIENT then Err(Insufficient)
    else Ok(res)
  }

  /** `wallet.Redis`: two scripts that run atomically and a decoder for their results. */
  class Redis {
    var store: Balances

    method ReserveScript(key: string, amount: int) returns (res: int)
      modifies this
      ensures key !in old(store) ==> res == RESULT_NOT_CACHED && store == old(store)
      ensures key in old(store) && old(store)[key] < amount ==> res == RESULT_INSUFFICIENT && store == old(store)
      ensures key in old(store) && old(store)[key] >= amount ==>
                res == old(store)[key] - amount && store == old(store)[key := res]
    {
      if key !in store {
        return -2;
      }
      var balance := store[key];
      if balance < amount {
        return -1;
      }
      store := store[key := balance - amount];
      return store[key];
    }

    method ReleaseScript(key: string, amount: int) returns (res: int)
      modifies this
      ensures key !in old(store) ==> res == RESULT_NOT_CACHED && store == old(store)
      ensures key in old(store) ==> res == old(store)[key] + amount && store == old(store)[key := res]
    {
      if key !in store {
        return -2;
      }
      store := store[key := store[key] + amount];
      return store[key];
    }

    /** A reservation behaves exactly as on the in-memory store, whatever is cached: a granted one
        leaves a balance that is not negative, so it is never taken for a refusal. */
    method Reserve(key: string, amount: int) returns (r: Result<int, Fault>)
      modifies this
      ensures (store, r) == Reserved(old(store), key, amount)
    {
      if amount <= 0 {
        return Err(NegativeAmount);
      }
      var res := ReserveScript(key, amount);
      return Decode(res);
    }

    /** A release updates the store as the in-memory one does; it also answers as that one does,
        except exactly when the new balance is one of the two reserved numbers. */
    method Release(key: string, amount: int) returns (r: Result<int, Fault>)
      modifies this
      ensures store == Released(old(store), key, amount).0
      ensures r == Released(old(store), key, amount).1 <==>
              !(amount > 0 && key in old(store) && -2 <= old(store)[key] + amount <= -1)
    {
      if amount <= 0 {
        return Err(NegativeAmount);
      }
      var res := ReleaseScript(key, amount);
      return Decode(res);
    }
  }
}
