/** internal/service/limits/concurrency.go. */
module Concurrency {

  /** In-flight requests per account; an absent account has none. */
  type Inflight = map<int, int>

  function Count(m: Inflight, id: int): int { if id in m then m[id] else 0 }

  predicate Admits(m: Inflight, id: int, max: int) { max <= 0 || Count(m, id) < max }

  function Acquired(m: Inflight, id: int): Inflight { m[id := Count(m, id) + 1] }

  function Released(m: Inflight, id: int): Inflight {
    var n := if Count(m, id) > 0 then Count(m, id) - 1 else Count(m, id);
    if n == 0 then m - {id} else m[id := n]
  }

  class ConcurrencyGuard {
    var inflight: Inflight

    constructor ()
      ensures inflight == map[]
    {
      inflight := map[];
    }

    method TryAcquire(id: int, max: int) returns (ok: bool)
      modifies this
      ensures ok == Admits(old(inflight), id, max)
      ensures inflight == if ok then Acquired(old(inflight), id) else old(inflight)
    {
      var n := if id in inflight then inflight[id] else 0;
      if max > 0 && n >= max {
        return false;
      }
      inflight := inflight[id := n + 1];
      return true;
    }

    method Release(id: int)
      modifies this
      ensures inflight == Released(old(inflight), id)
      ensures id in old(inflight) && old(inflight)[id] > 1 ==> inflight == old(inflight)[id := old(inflight)[id] - 1]
      ensures id !in old(inflight) || old(inflight)[id] in {0, 1} ==> inflight == old(inflight) - {id}
    {
      if id in inflight && inflight[id] > 0 {
        inflight := inflight[id := inflight[id] - 1];
      }
      if id !in inflight || inflight[id] == 0 {
        inflight := inflight - {id};
      }
    }

    method AtCap(id: int, max: int) returns (full: bool)
      ensures full == !Admits(inflight, id, max)
    {
      if max <= 0 {
        return false;
      }
      var n := if id in inflight then inflight[id] else 0;
      return n >= max;
    }
  }
}
