/** The byte budgets of both peers.  An atomic read-modify-write is one step. */
module Budgets {

  /** The shared acceptance rule: an empty reservation always succeeds, any other must stay within the limit. */
  predicate Admits(limit: int, used: int, size: int) {
    0 <= size <= limit && (size == 0 || used <= limit - size)
  }

  /** The Gateway's budget; `Release` reports false where the source panics. */
  class GatewayBudget {
    const limit: int
    var used: int
    var rejected: nat

    constructor (limit: int)
      ensures this.limit == limit && used == 0 && rejected == 0
      ensures limit >= 0 ==> Within()
    {
      this.limit := limit;
      used, rejected := 0, 0;
    }

    predicate Within()
      reads this
    {
      0 <= used <= limit
    }

    /** On a budget within its limit: it succeeds iff the sum stays there, so usage never passes the limit. */
    method TryAcquire(size: int) returns (ok: bool)
      modifies this
      ensures ok == Admits(limit, old(used), size)
      ensures used == old(used) + (if ok then size else 0)
      ensures old(Within()) ==> Within() && (ok <==> 0 <= size && old(used) + size <= limit)
      ensures rejected == old(rejected) + (if ok then 0 else 1)
    {
      if size < 0 || size > limit {
        rejected := rejected + 1;
        return false;
      }
      if size == 0 {
        return true;
      }
      if used > limit - size {
        rejected := rejected + 1;
        return false;
      }
      used := used + size;
      return true;
    }

    method Release(size: int) returns (sound: bool)
      modifies this
      ensures used == old(used) - (if size > 0 then size else 0)
      ensures old(Within()) && sound ==> Within()
      ensures sound == (size <= 0 || used >= 0)
      ensures rejected == old(rejected)
    {
      if size <= 0 {
        return true;
      }
      used := used - size;
      return used >= 0;
    }
  }

  /** The Agent's budget: an over-release is clamped to zero and counted. */
  class AgentBudget {
    const limit: int
    var used: int
    var underflows: nat

    constructor (limit: int)
      ensures this.limit == limit && used == 0 && underflows == 0
      ensures limit >= 0 ==> Within()
    {
      this.limit := limit;
      used, underflows := 0, 0;
    }

    predicate Within()
      reads this
    {
      0 <= used <= limit
    }

    /** On a budget within its limit: it succeeds iff the sum stays there, so usage never passes the limit. */
    method TryAcquire(size: int) returns (ok: bool)
      modifies this
      ensures ok == Admits(limit, old(used), size)
      ensures used == old(used) + (if ok then size else 0)
      ensures old(Within()) ==> Within() && (ok <==> 0 <= size && old(used) + size <= limit)
      ensures underflows == old(underflows)
    {
      if size < 0 || size > limit {
        return false;
      }
      if size == 0 {
        return true;
      }
      if used > limit - size {
        return false;
      }
      used := used + size;
      return true;
    }

    method Release(size: int) returns (sound: bool)
      requires used >= 0
      modifies this
      ensures sound == (size <= old(used) || size <= 0)
      ensures old(Within()) ==> Within()
      ensures used == if size <= 0 then old(used) else if sound then old(used) - size else 0
      ensures underflows == old(underflows) + (if sound then 0 else 1)
    {
      if size <= 0 {
        return true;
      }
      var next := used - size;
      if next < 0 {
        used := 0;
        underflows := underflows + 1;
        return false;
      }
      used := next;
      return true;
    }
  }
}
