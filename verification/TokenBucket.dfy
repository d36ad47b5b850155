/** The per-IP token bucket of internal/service/blockedip/tpm.go. Time is in seconds. */
module TokenBucket {

  datatype Bucket = Bucket(capacity: int, available: real, lastRefill: real)

  datatype Ip = Ip(text: string)

  type Buckets = map<Ip, Bucket>

  const NO_BUCKETS: Buckets := map[]

  /** Tokens that flow in during `seconds`. */
  function Inflow(tpm: int, seconds: real): real { tpm as real / 60.0 * seconds }

  predicate Limited(ip: Ip, tpm: int) { tpm > 0 && ip.text != "" }

  /** The bucket in use: the known one unless the cap changed, else a full one. */
  function Current(bs: Buckets, ip: Ip, tpm: int, created: real): Bucket {
    if ip in bs && bs[ip].capacity == tpm then bs[ip] else Bucket(tpm, tpm as real, created)
  }

  /** What the bucket would hold at a time not before its last refill. */
  function Level(b: Bucket, t: real): real {
    var full := b.available + Inflow(b.capacity, t - b.lastRefill);
    if full > b.capacity as real then b.capacity as real else full
  }

  function Refilled(b: Bucket, now: real): Bucket {
    if now <= b.lastRefill then b else Bucket(b.capacity, Level(b, now), now)
  }

  /** A limited call that takes n tokens; admission takes none. */
  function Used(bs: Buckets, ip: Ip, tpm: int, created: real, now: real, n: int): Buckets {
    var b := Refilled(Current(bs, ip, tpm, created), now);
    bs[ip := b.(available := b.available - n as real)]
  }

  /** A call that takes nothing sees what is left after the refill; one whole token is
      enough. */
  predicate Admits(bs: Buckets, ip: Ip, tpm: int, created: real, now: real) {
    Limited(ip, tpm) ==> Used(bs, ip, tpm, created, now, 0)[ip].available >= 1.0
  }

  class TPMCache {
    var buckets: Buckets

    constructor ()
      ensures buckets == NO_BUCKETS
    {
      buckets := NO_BUCKETS;
    }

    method Refill(ip: Ip, now: real)
      requires ip in buckets
      modifies this
      ensures buckets == old(buckets)[ip := Refilled(old(buckets)[ip], now)]
      ensures now <= old(buckets)[ip].lastRefill ==> buckets == old(buckets)
      ensures now > old(buckets)[ip].lastRefill ==>
        var b, cap := old(buckets)[ip], old(buckets)[ip].capacity as real;
        var full := b.available + cap / 60.0 * (now - b.lastRefill);
        buckets[ip] == Bucket(b.capacity, if full > cap then cap else full, now)
    {
      var b := buckets[ip];
      var elapsed := now - b.lastRefill;
      if elapsed <= 0.0 {
        return;
      }
      var available := b.available + Inflow(b.capacity, elapsed);
      if available > b.capacity as real {
        available := b.capacity as real;
      }
      buckets := buckets[ip := Bucket(b.capacity, available, now)];
    }

    method GetOrCreate(ip: Ip, tpm: int, created: real)
      modifies this
      ensures buckets == old(buckets)[ip := Current(old(buckets), ip, tpm, created)]
      ensures ip in old(buckets) && old(buckets)[ip].capacity == tpm ==> buckets == old(buckets)
      ensures !(ip in old(buckets) && old(buckets)[ip].capacity == tpm) ==>
        buckets == old(buckets)[ip := Bucket(tpm, tpm as real, created)]
    {
      if ip !in buckets || buckets[ip].capacity != tpm {
        buckets := buckets[ip := Bucket(tpm, tpm as real, created)];
      }
    }

    /** `created` and `now` are the two clock readings. At least one whole token must be
        left. */
    method Allow(ip: Ip, tpm: int, created: real, now: real) returns (ok: bool)
      modifies this
      ensures buckets == if Limited(ip, tpm) then Used(old(buckets), ip, tpm, created, now, 0) else old(buckets)
      ensures ok == Admits(old(buckets), ip, tpm, created, now)
      ensures tpm <= 0 || ip.text == "" ==> ok && buckets == old(buckets)
      ensures tpm > 0 && ip.text != "" ==> ip in buckets && (ok <==> buckets[ip].available >= 1.0)
    {
      if tpm <= 0 || ip.text == "" {
        return true;
      }
      GetOrCreate(ip, tpm, created);
      Refill(ip, now);
      return buckets[ip].available >= 1.0;
    }

    method Charge(ip: Ip, tpm: int, n: int, created: real, now: real)
      modifies this
      ensures buckets == if Limited(ip, tpm) && n > 0 then Used(old(buckets), ip, tpm, created, now, n)
                         else old(buckets)
      ensures tpm <= 0 || ip.text == "" || n <= 0 ==> buckets == old(buckets)
    {
      if tpm <= 0 || n <= 0 || ip.text == "" {
        return;
      }
      GetOrCreate(ip, tpm, created);
      Refill(ip, now);
      buckets := buckets[ip := buckets[ip].(available := buckets[ip].available - n as real)];
    }
  }

  // ----------------------------------------------------------------------- runs

  /** One call: n = 0 is Allow, n > 0 is Charge; charges of nothing are no calls. */
  datatype Call = Call(ip: Ip, tpm: int, created: real, now: real, n: nat)

  function Next(bs: Buckets, c: Call): Buckets {
    if Limited(c.ip, c.tpm) then Used(bs, c.ip, c.tpm, c.created, c.now, c.n) else bs
  }

  function Exec(calls: seq<Call>, k: nat): Buckets
    requires k <= |calls|
  {
    if k == 0 then NO_BUCKETS else Next(Exec(calls, k - 1), calls[k - 1])
  }

  /** Tokens charged to the ip by calls i up to j. */
  function Charged(calls: seq<Call>, i: nat, j: nat, ip: Ip): int
    requires i <= j <= |calls|
    decreases j
  {
    if i == j then 0
    else Charged(calls, i, j - 1, ip) + if calls[j - 1].ip == ip then calls[j - 1].n else 0
  }

  lemma InflowAdds(tpm: int, a: real, b: real)
    ensures Inflow(tpm, a) + Inflow(tpm, b) == Inflow(tpm, a + b)
    ensures Inflow(tpm, 0.0) == 0.0
  {
  }

  lemma InflowIsPositive(tpm: int, a: real)
    requires tpm >= 0 && a >= 0.0
    ensures Inflow(tpm, a) >= 0.0
  {
  }

  ghost predicate WithinCapacity(bs: Buckets) {
    forall ip :: ip in bs ==> bs[ip].capacity > 0 && bs[ip].available <= bs[ip].capacity as real
  }

  /** No bucket ever holds more than its capacity. */
  lemma {:induction false} NeverOverfull(calls: seq<Call>, k: nat)
    requires k <= |calls|
    ensures WithinCapacity(Exec(calls, k))
  {
    if k > 0 {
      NeverOverfull(calls, k - 1);
    }
  }

  /** The calls i up to j that concern the ip use one cap and come in clock order, none
      before t0. */
  ghost predicate Steady(calls: seq<Call>, i: nat, j: nat, ip: Ip, tpm: int, t0: real)
    requires i <= j <= |calls|
  {
    && (forall k :: i <= k < j && calls[k].ip == ip ==> calls[k].tpm == tpm && calls[k].now >= t0)
    && (forall k, l :: i <= k < l < j && calls[k].ip == ip && calls[l].ip == ip ==> calls[k].now <= calls[l].now)
  }

  /** A bucket after a call of its own, no earlier than its last refill. */
  lemma UseLowersLevel(b: Bucket, now: real, n: int, t: real)
    requires b.lastRefill <= now <= t && b.capacity > 0 && n >= 0 && b.available <= b.capacity as real
    ensures var b' := Refilled(b, now).(available := Refilled(b, now).available - n as real);
      && b'.available == Level(b, now) - n as real
      && b'.lastRefill == now && b'.capacity == b.capacity
      && Level(b', t) <= Level(b, now) - n as real + Inflow(b.capacity, t - now)
  {
    InflowAdds(b.capacity, 0.0, 0.0);
  }

  ghost predicate Accounted(b: Bucket, tpm: int, charged: int, t0: real, last: real) {
    && b.capacity == tpm && b.available <= tpm as real && b.lastRefill <= last
    && forall t :: t >= last ==> charged as real + Level(b, t) <= tpm as real + Inflow(tpm, t - t0)
  }

  lemma AccountStarts(b: Bucket, tpm: int, t0: real)
    requires tpm > 0 && b.capacity == tpm && b.available <= tpm as real && b.lastRefill <= t0
    ensures Accounted(b, tpm, 0, t0, t0)
  {
    forall t | t >= t0 ensures 0.0 + Level(b, t) <= tpm as real + Inflow(tpm, t - t0) {
      InflowIsPositive(tpm, t - t0);
    }
  }

  lemma AccountGoesOn(b: Bucket, tpm: int, charged: int, t0: real, last: real, now: real, n: int)
    requires tpm > 0 && n >= 0 && Accounted(b, tpm, charged, t0, last) && now >= last
    ensures Accounted(Refilled(b, now).(available := Refilled(b, now).available - n as real), tpm, charged + n, t0, now)
  {
    var b' := Refilled(b, now).(available := Refilled(b, now).available - n as real);
    UseLowersLevel(b, now, n, now);
    forall t | t >= now
      ensures (charged + n) as real + Level(b', t) <= tpm as real + Inflow(tpm, t - t0)
    {
      UseLowersLevel(b, now, n, t);
      InflowAdds(tpm, now - t0, t - now);
      assert charged as real + Level(b, now) <= tpm as real + Inflow(tpm, now - t0);
    }
  }

  /** The clock reading of the last call of the ip among calls i up to j, t0 if none. */
  function LastCall(calls: seq<Call>, i: nat, j: nat, ip: Ip, t0: real): real
    requires i <= j <= |calls|
    decreases j
  {
    if i == j then t0 else if calls[j - 1].ip == ip then calls[j - 1].now else LastCall(calls, i, j - 1, ip, t0)
  }

  lemma {:induction false} LastCallIsLast(calls: seq<Call>, i: nat, j: nat, ip: Ip, t0: real, now: real)
    requires i <= j <= |calls| && now >= t0
    requires forall k :: i <= k < j && calls[k].ip == ip ==> calls[k].now <= now
    ensures LastCall(calls, i, j, ip, t0) <= now
  {
    if i < j {
      LastCallIsLast(calls, i, j - 1, ip, t0, now);
    }
  }

  /** Since t0, the tokens charged and the tokens left never exceed a full bucket plus what
      flowed in. */
  lemma {:induction false} ChargedPlusLeft(calls: seq<Call>, i: nat, j: nat, ip: Ip, tpm: int, t0: real)
    requires i <= j <= |calls| && Limited(ip, tpm)
    requires ip in Exec(calls, i) && Exec(calls, i)[ip].capacity == tpm && Exec(calls, i)[ip].lastRefill <= t0
    requires Steady(calls, i, j, ip, tpm, t0)
    ensures ip in Exec(calls, j)
    ensures Accounted(Exec(calls, j)[ip], tpm, Charged(calls, i, j, ip), t0, LastCall(calls, i, j, ip, t0))
  {
    if i == j {
      NeverOverfull(calls, i);
      AccountStarts(Exec(calls, i)[ip], tpm, t0);
    } else {
      ChargedPlusLeft(calls, i, j - 1, ip, tpm, t0);
      var c := calls[j - 1];
      if c.ip == ip {
        LastCallIsLast(calls, i, j - 1, ip, t0, c.now);
        AccountGoesOn(Exec(calls, j - 1)[ip], tpm, Charged(calls, i, j - 1, ip), t0,
                      LastCall(calls, i, j - 1, ip, t0), c.now, c.n);
      }
    }
  }

  /** Whenever a call is admitted at time t, the tokens charged since any earlier t0 after
      the bucket's creation leave at least one: they total at most the capacity plus the
      inflow since t0, minus one. */
  lemma AdmissionBound(calls: seq<Call>, i: nat, j: nat, ip: Ip, tpm: int, t0: real)
    requires i < j <= |calls| && Limited(ip, tpm)
    requires ip in Exec(calls, i) && Exec(calls, i)[ip].capacity == tpm && Exec(calls, i)[ip].lastRefill <= t0
    requires Steady(calls, i, j, ip, tpm, t0)
    requires calls[j - 1].ip == ip && calls[j - 1].n == 0
    requires ip in Exec(calls, j) && Exec(calls, j)[ip].available >= 1.0
    ensures Charged(calls, i, j, ip) as real <= tpm as real + Inflow(tpm, calls[j - 1].now - t0) - 1.0
  {
    ChargedPlusLeft(calls, i, j, ip, tpm, t0);
    var b, now := Exec(calls, j)[ip], calls[j - 1].now;
    InflowIsPositive(tpm, now - b.lastRefill);
    assert Level(b, now) >= 1.0;
  }

  /** A changed cap starts over with a full bucket, whatever was owed; other IPs are not
      touched. */
  lemma CapChangeWipesDebt(bs: Buckets, c: Call)
    requires Limited(c.ip, c.tpm) && (c.ip in bs ==> bs[c.ip].capacity != c.tpm)
    ensures Next(bs, c)[c.ip].capacity == c.tpm
    ensures Next(bs, c)[c.ip].available == (c.tpm - c.n) as real
    ensures forall ip :: ip != c.ip && ip in bs ==> ip in Next(bs, c) && Next(bs, c)[ip] == bs[ip]
  {
    if c.now > c.created {
      InflowIsPositive(c.tpm, c.now - c.created);
    }
  }

  /** The instant at which inflow has brought, or will have brought, a bucket to zero. */
  function Even(b: Bucket): real
    requires b.capacity > 0
  {
    b.lastRefill - b.available * 60.0 / b.capacity as real
  }

  /** The documented rule, any remaining budget, would let an address in again right after
      that instant; the code does it exactly one token's inflow later. */
  lemma OneTokenLater(bs: Buckets, ip: Ip, tpm: int, created: real, now: real)
    requires Limited(ip, tpm) && ip in bs && bs[ip].capacity == tpm
    requires bs[ip].available <= tpm as real && bs[ip].lastRefill <= now
    ensures Used(bs, ip, tpm, created, now, 0)[ip].available > 0.0 <==> now > Even(bs[ip])
    ensures Admits(bs, ip, tpm, created, now) <==> now >= Even(bs[ip]) + 60.0 / tpm as real
  {
    var b := bs[ip];
    InflowSinceEven(b, now);
    TimeAndTokens(tpm as real, now - Even(b), 0.0);
    TimeAndTokens(tpm as real, now - Even(b), 1.0);
  }

  lemma InflowSinceEven(b: Bucket, t: real)
    requires b.capacity > 0
    ensures b.available + Inflow(b.capacity, t - b.lastRefill) == b.capacity as real / 60.0 * (t - Even(b))
  {
    var c, x := b.capacity as real, b.available;
    assert c / 60.0 * (x * 60.0 / c) == x;
    assert t - Even(b) == (t - b.lastRefill) + x * 60.0 / c;
    assert c / 60.0 * ((t - b.lastRefill) + x * 60.0 / c) == c / 60.0 * (t - b.lastRefill) + c / 60.0 * (x * 60.0 / c);
  }

  lemma TimeAndTokens(c: real, d: real, n: real)
    requires c > 0.0
    ensures c / 60.0 * d > n <==> d > n * 60.0 / c
    ensures c / 60.0 * d >= n <==> d >= n * 60.0 / c
  {
    var e := n * 60.0 / c;
    assert c / 60.0 * e == n;
    assert c / 60.0 * d - c / 60.0 * e == c / 60.0 * (d - e);
    if d > e {
      assert c / 60.0 * (d - e) > 0.0;
    } else if d < e {
      assert c / 60.0 * (e - d) > 0.0;
    }
  }

  /** Half a token left: the documented rule would admit, the code does not. */
  lemma HalfTokenHappens(ip: Ip, now: real)
    requires ip.text != ""
    ensures var bs := map[ip := Bucket(60, 0.5, now)];
      Used(bs, ip, 60, now, now, 0)[ip].available == 0.5 && !Admits(bs, ip, 60, now, now)
  {
  }
}
