/** Plan credit, wallet and charging: internal/repository/plan.go,
    internal/service/billing/billing.go and repository_store.go. Stored NUMERIC(14,6)
    columns are whole micro-dollars; amounts in flight are exact dollars. */
module Billing {
  import opened Common

  function Usd(micros: int): real { micros as real / 1000000.0 }

  function Price(cost: real, ratio: real): (p: real)
    ensures cost >= 0.0 && ratio >= 0.0 ==> p >= 0.0
    ensures ratio == 1.0 ==> p == cost
  {
    cost * ratio
  }

  /** Rounding to the column's scale, half away from zero. */
  function Round6(x: real): (m: int)
    requires x >= 0.0
    ensures -0.0000005 < Usd(m) - x <= 0.0000005
    ensures m >= 0
  {
    (x * 1000000.0 + 0.5).Floor
  }

  /** Rounding with ties going down: what a charge takes from ample credit. */
  function HalfDown(x: real): (m: int)
    ensures -0.0000005 <= x - Usd(m) <= 0.0000005
  {
    -((0.5 - x * 1000000.0).Floor)
  }

  datatype Status = Active | Expired | Depleted | Revoked

  datatype Plan = Plan(credit: real, validFor: Option<int>, ratio: real, overage: bool)

  /** A user_plan_grants row; its id is its position in the table. */
  datatype Grant = Grant(
    user: int, startsAt: int, expiresAt: Option<int>, granted: int, remaining: int,
    ratio: real, overage: bool, status: Status)
  {
    predicate EligibleFor(u: int, now: int) {
      && user == u && (status == Active || status == Depleted)
      && startsAt <= now && (expiresAt.Some? ==> expiresAt.value > now)
    }
  }

  /** A plan_usage_ledger row; `charge` names the request that caused it. */
  datatype Entry = Entry(grant: nat, user: int, amount: int, charge: nat)

  /** `credits` and `billed` are the sums of a user's wallet entries and of the wallet shares
      of stored request rows. */
  datatype Db = Db(grants: seq<Grant>, ledger: seq<Entry>, credits: map<int, int>, billed: map<int, int>) {

    /** Wallet credits minus wallet-billed usage. */
    function WalletBalance(user: int): real {
      Usd(Amount(credits, user) - Amount(billed, user))
    }
  }

  function Amount(m: map<int, int>, user: int): int { if user in m then m[user] else 0 }

  /** The eligible grant that started last, later rows first among equals, out of the
      first n rows. */
  function LatestActive(grants: seq<Grant>, n: nat, user: int, now: int): (g: Option<nat>)
    requires n <= |grants|
    ensures g.Some? ==> g.value < n
  {
    if n == 0 then None
    else
      var best := LatestActive(grants, n - 1, user, now);
      if !grants[n - 1].EligibleFor(user, now) then best
      else if best.None? || grants[n - 1].startsAt >= grants[best.value].startsAt then Some(n - 1)
      else best
  }

  function ActiveGrant(db: Db, user: int, now: int): (g: Option<nat>)
    ensures g.Some? ==> g.value < |db.grants|
  {
    LatestActive(db.grants, |db.grants|, user, now)
  }

  /** Another user's row, one that is expired or revoked, or one outside its period. */
  ghost predicate PassedOver(g: Grant, user: int, now: int) {
    || g.user != user || g.status == Expired || g.status == Revoked
    || now < g.startsAt || (g.expiresAt.Some? && g.expiresAt.value <= now)
  }

  /** ORDER BY starts_at DESC, id DESC LIMIT 1 of the rows that are not passed over. */
  ghost predicate IsLatest(grants: seq<Grant>, n: nat, user: int, now: int, g: Option<nat>)
    requires n <= |grants|
  {
    match g
    case None => forall j :: 0 <= j < n ==> PassedOver(grants[j], user, now)
    case Some(i) =>
      && i < n && !PassedOver(grants[i], user, now)
      && forall j :: 0 <= j < n && !PassedOver(grants[j], user, now) ==>
           grants[j].startsAt < grants[i].startsAt || (grants[j].startsAt == grants[i].startsAt && j <= i)
  }

  lemma {:induction false} ActiveGrantIsLatest(grants: seq<Grant>, n: nat, user: int, now: int)
    requires n <= |grants|
    ensures IsLatest(grants, n, user, now, LatestActive(grants, n, user, now))
  {
    if n > 0 {
      ActiveGrantIsLatest(grants, n - 1, user, now);
    }
  }

  /** The columns after taking `amount` from `remaining`, and the micro-dollars taken. */
  function Left(remaining: int, amount: real): (r: real)
    ensures r >= 0.0
  {
    if Usd(remaining) - amount > 0.0 then Usd(remaining) - amount else 0.0
  }

  /** ConsumeGrantCredit's transaction. A deduction that rounds to nothing is rolled back. */
  function Consume(db: Db, g: nat, user: int, amount: real, charge: nat): (r: (Db, int))
    ensures r.1 >= 0
  {
    if amount <= 0.0 || g >= |db.grants| || db.grants[g].user != user || db.grants[g].status != Active then (db, 0)
    else
      var row := db.grants[g];
      var left := Left(row.remaining, amount);
      var used := row.remaining - Round6(left);
      if used <= 0 then (db, 0)
      else
        var next := row.(remaining := Round6(left), status := if left <= 0.0 then Depleted else Active);
        (db.(grants := db.grants[g := next], ledger := db.ledger + [Entry(g, user, used, charge)]), used)
  }

  datatype Mode = Payg | PlanMode

  datatype Result = Result(billed: real, plan: real, wallet: real, grant: Option<nat>)

  datatype Outcome = Charged(r: Result) | Insufficient | StoreError

  /** Which store call fails, if any; a failed transaction leaves the rows alone. */
  datatype Faults = Faults(grant: bool, consume: bool, wallet: bool)

  const NO_FAULTS := Faults(false, false, false)
  const TOLERANCE: real := 0.000000001

  class Store {
    var db: Db

    constructor ()
      ensures db == Db([], [], map[], map[])
    {
      db := Db([], [], map[], map[]);
    }

    method GrantPlanToUser(user: int, plan: Plan, startsAt: int) returns (id: nat)
      requires plan.credit >= 0.0
      modifies this
      ensures id == |old(db.grants)|
      ensures db == old(db).(grants := old(db).grants + [NewGrant(user, plan, startsAt)])
      ensures var g := db.grants[id];
        && g.user == user && g.startsAt == startsAt && g.status == Active
        && (plan.validFor.None? ==> g.expiresAt == None)
        && (plan.validFor.Some? ==> g.expiresAt == Some(startsAt + plan.validFor.value))
        && g.granted == g.remaining && -0.0000005 < Usd(g.granted) - plan.credit <= 0.0000005
        && g.ratio == plan.ratio && g.overage == plan.overage
    {
      var expiresAt: Option<int> := None;
      if plan.validFor.Some? {
        expiresAt := Some(startsAt + plan.validFor.value);
      }
      id := |db.grants|;
      var credit := Round6(plan.credit);
      var row := Grant(user, startsAt, expiresAt, credit, credit, plan.ratio, plan.overage, Active);
      db := db.(grants := db.grants + [row]);
    }

    method ConsumeGrantCredit(g: nat, user: int, amount: real, charge: nat) returns (consumed: int)
      modifies this
      ensures (db, consumed) == Consume(old(db), g, user, amount, charge)
    {
      if amount <= 0.0 {
        return 0;
      }
      if g >= |db.grants| || db.grants[g].user != user || db.grants[g].status != Active {
        return 0;
      }
      var rem := db.grants[g].remaining;
      var left := if Usd(rem) - amount > 0.0 then Usd(rem) - amount else 0.0;
      var stored := Round6(left);
      consumed := rem - stored;
      if consumed <= 0 {
        return 0;
      }
      var status := if left <= 0.0 then Depleted else Active;
      db := db.(grants := db.grants[g := db.grants[g].(remaining := stored, status := status)],
                ledger := db.ledger + [Entry(g, user, consumed, charge)]);
    }
  }

  function NewGrant(user: int, plan: Plan, startsAt: int): Grant
    requires plan.credit >= 0.0
  {
    var credit := Round6(plan.credit);
    Grant(user, startsAt, if plan.validFor.Some? then Some(startsAt + plan.validFor.value) else None,
          credit, credit, plan.ratio, plan.overage, Active)
  }

  function Available(db: Db, user: int, mode: Mode, now: int): real {
    if mode == Payg then db.WalletBalance(user)
    else
      match ActiveGrant(db, user, now)
      case None => 0.0
      case Some(g) =>
        Usd(db.grants[g].remaining) + if db.grants[g].overage then db.WalletBalance(user) else 0.0
  }

  /** A balance needs the grant row in plan mode, and the wallet where it counts; the error
      of either read is passed on. */
  predicate Unreadable(db: Db, user: int, mode: Mode, now: int, f: Faults) {
    if mode == PlanMode then f.grant || (f.wallet && WalletCounts(db, user, mode, now)) else f.wallet
  }

  /** The wallet is part of the balance in payg mode and under a grant with overage. */
  predicate WalletCounts(db: Db, user: int, mode: Mode, now: int) {
    mode == Payg || (ActiveGrant(db, user, now).Some? && db.grants[ActiveGrant(db, user, now).value].overage)
  }

  /** The rest of the price on a wallet that was read to hold `wallet`. */
  function FromWallet(wallet: real, r: Result, rest: real): Outcome {
    if wallet + TOLERANCE < rest then Insufficient else Charged(r.(wallet := rest))
  }

  /** The wallet share, or the refusal, of what plan credit did not cover. */
  function Overage(db: Db, user: int, g: Grant, r: Result, rest: real, fault: bool): Outcome {
    if !g.overage then Insufficient
    else if fault then StoreError
    else FromWallet(db.WalletBalance(user), r, rest)
  }

  function PlanCharge(db: Db, user: int, cost: real, now: int, charge: nat, f: Faults): (Db, Outcome) {
    if f.grant then (db, StoreError)
    else
      match ActiveGrant(db, user, now)
      case None => (db, Insufficient)
      case Some(id) => Draw(db, user, id, Price(cost, db.grants[id].ratio), charge, f)
  }

  /** Plan credit first, then wallet overage. */
  function Draw(db: Db, user: int, id: nat, amount: real, charge: nat, f: Faults): (Db, Outcome)
    requires id < |db.grants|
  {
    var g, r := db.grants[id], Result(amount, 0.0, 0.0, None);
    if amount <= 0.0 then (db, Charged(r))
    else if g.remaining <= 0 then (db, Overage(db, user, g, r, amount, f.wallet))
    else if f.consume then (db, StoreError)
    else
      var (db', used) := Consume(db, id, user, amount, charge);
      var r' := r.(plan := Usd(used), grant := Some(id));
      if amount - Usd(used) <= TOLERANCE then (db', Charged(r'))
      else (db', Overage(db', user, g, r', amount - Usd(used), f.wallet))
  }

  function PaygCharge(db: Db, user: int, cost: real, ratio: real, fault: bool): Outcome {
    var amount := Price(cost, ratio);
    var r := Result(amount, 0.0, 0.0, None);
    if amount <= 0.0 then Charged(r)
    else if fault then StoreError
    else FromWallet(db.WalletBalance(user), r, amount)
  }

  function ChargeOf(db: Db, user: int, cost: real, ratio: real, mode: Mode, now: int, charge: nat, f: Faults)
    : (Db, Outcome)
  {
    if cost <= 0.0 then (db, Charged(Result(0.0, 0.0, 0.0, None)))
    else if mode == PlanMode then PlanCharge(db, user, cost, now, charge, f)
    else (db, PaygCharge(db, user, cost, ratio, f.wallet))
  }

  class Service {
    const store: Store

    constructor (s: Store)
      ensures store == s
    {
      store := s;
    }

    method AvailableBalance(user: int, mode: Mode, now: int, f: Faults) returns (balance: Option<real>)
      ensures balance == if Unreadable(store.db, user, mode, now, f) then None
                         else Some(Available(store.db, user, mode, now))
      ensures mode == Payg ==> balance == if f.wallet then None else Some(store.db.WalletBalance(user))
      ensures mode == PlanMode ==>
        match ActiveGrant(store.db, user, now)
        case None => balance == if f.grant then None else Some(0.0)
        case Some(g) =>
          var row := store.db.grants[g];
          && (balance.None? <==> f.grant || (row.overage && f.wallet))
          && (balance.Some? ==>
                balance.value == Usd(row.remaining) + if row.overage then store.db.WalletBalance(user) else 0.0)
    {
      if mode == PlanMode {
        if f.grant {
          return None;
        }
        var g := ActiveGrant(store.db, user, now);
        if g.None? {
          return Some(0.0);
        }
        var avail := Usd(store.db.grants[g.value].remaining);
        if store.db.grants[g.value].overage {
          if f.wallet {
            return None;
          }
          avail := avail + store.db.WalletBalance(user);
        }
        return Some(avail);
      }
      return if f.wallet then None else Some(store.db.WalletBalance(user));
    }

    method Charge(user: int, cost: real, ratio: real, mode: Mode, now: int, charge: nat, f: Faults)
      returns (out: Outcome)
      modifies store
      ensures (store.db, out) == ChargeOf(old(store.db), user, cost, ratio, mode, now, charge, f)
      ensures cost <= 0.0 ==> store.db == old(store.db) && out == Charged(Result(0.0, 0.0, 0.0, None))
    {
      if cost <= 0.0 {
        return Charged(Result(0.0, 0.0, 0.0, None));
      }
      if mode == PlanMode {
        out := ChargePlan(user, cost, now, charge, f);
      } else {
        out := ChargePayg(user, cost, ratio, f.wallet);
      }
    }

    method ChargePayg(user: int, cost: real, ratio: real, fault: bool) returns (out: Outcome)
      ensures out == PaygCharge(store.db, user, cost, ratio, fault)
    {
      var amount := Price(cost, ratio);
      if amount <= 0.0 {
        return Charged(Result(amount, 0.0, 0.0, None));
      }
      if fault {
        return StoreError;
      }
      if store.db.WalletBalance(user) + TOLERANCE < amount {
        return Insufficient;
      }
      return Charged(Result(amount, 0.0, amount, None));
    }

    method ChargePlan(user: int, cost: real, now: int, charge: nat, f: Faults) returns (out: Outcome)
      modifies store
      ensures (store.db, out) == PlanCharge(old(store.db), user, cost, now, charge, f)
    {
      if f.grant {
        return StoreError;
      }
      var id := ActiveGrant(store.db, user, now);
      if id.None? {
        return Insufficient;
      }
      out := DrawCredit(user, id.value, Price(cost, store.db.grants[id.value].ratio), charge, f);
    }

    /** Plan credit first, then wallet overage when the grant allows it. */
    method DrawCredit(user: int, id: nat, amount: real, charge: nat, f: Faults) returns (out: Outcome)
      requires id < |store.db.grants|
      modifies store
      ensures (store.db, out) == Draw(old(store.db), user, id, amount, charge, f)
    {
      var g := store.db.grants[id];
      var r := Result(amount, 0.0, 0.0, None);
      if amount <= 0.0 {
        return Charged(r);
      }
      var remaining := amount;
      if g.remaining > 0 {
        if f.consume {
          return StoreError;
        }
        var used := store.ConsumeGrantCredit(id, user, remaining, charge);
        r := r.(plan := Usd(used), grant := Some(id));
        remaining := remaining - Usd(used);
        if remaining <= TOLERANCE {
          return Charged(r);
        }
      }
      if !g.overage {
        return Insufficient;
      }
      if f.wallet {
        return StoreError;
      }
      if store.db.WalletBalance(user) + TOLERANCE < remaining {
        return Insufficient;
      }
      return Charged(r.(wallet := remaining));
    }
  }

  // ------------------------------------------------------------------- theorems

  /** The rows' own consistency, kept by every run (see BillingRuns). */
  ghost predicate Sound(db: Db) {
    forall g :: 0 <= g < |db.grants| ==> SoundGrant(db.grants[g])
  }

  ghost predicate SoundGrant(g: Grant) {
    0 <= g.remaining <= g.granted && g.ratio >= 0.0 && (g.status == Depleted ==> g.remaining == 0)
  }

  /** What one deduction takes: everything when the credit is short, and otherwise the
      amount rounded to the column's scale with ties going down. */
  lemma ConsumeTakes(remaining: int, amount: real)
    requires remaining >= 0 && amount > 0.0
    ensures var used := remaining - Round6(Left(remaining, amount));
      && 0 <= used <= remaining
      && (amount >= Usd(remaining) ==> used == remaining)
      && (amount <= Usd(remaining) ==> used == HalfDown(amount))
  {
    if amount <= Usd(remaining) {
      assert Left(remaining, amount) * 1000000.0 + 0.5 == remaining as real + (0.5 - amount * 1000000.0);
      FloorShift(0.5 - amount * 1000000.0, remaining);
    }
    if amount >= Usd(remaining) {
      assert Left(remaining, amount) == 0.0;
    }
  }

  /** What the transaction writes: nothing for a row that is another user's or not active, or
      if the amount rounds to nothing; otherwise the row has that much less and is depleted
      exactly when the amount was all it had or more, and the ledger names grant, user, amount
      and charge. */
  lemma ConsumeWrites(db: Db, g: nat, user: int, amount: real, charge: nat)
    requires Sound(db)
    ensures var (db', used) := Consume(db, g, user, amount, charge);
      && (used > 0 <==>
            && amount > 0.0 && g < |db.grants| && db.grants[g].user == user && db.grants[g].status == Active
            && (if amount >= Usd(db.grants[g].remaining) then db.grants[g].remaining > 0 else HalfDown(amount) > 0))
      && (used <= 0 ==> db' == db)
      && (used > 0 ==>
            && |db'.grants| == |db.grants|
            && (forall j :: 0 <= j < |db.grants| && j != g ==> db'.grants[j] == db.grants[j])
            && db'.grants[g] == db.grants[g].(
                 remaining := db.grants[g].remaining - used,
                 status := if amount >= Usd(db.grants[g].remaining) then Depleted else Active)
            && db'.ledger == db.ledger + [Entry(g, user, used, charge)]
            && db'.credits == db.credits && db'.billed == db.billed)
  {
    if amount > 0.0 && g < |db.grants| {
      assert SoundGrant(db.grants[g]);
      ConsumeTakes(db.grants[g].remaining, amount);
    }
  }

  lemma FloorShift(x: real, n: int)
    ensures (n as real + x).Floor == n + x.Floor
  {
  }

  /** An amount that the stored scale can hold. */
  predicate OnGrid(x: real)
    requires x >= 0.0
  {
    Usd(Round6(x)) == x
  }

  lemma GridRounding(x: real)
    requires x >= 0.0
    ensures OnGrid(x) <==> Usd(HalfDown(x)) == x
  {
    if OnGrid(x) {
      FloorShift(0.5, -Round6(x));
    } else if Usd(HalfDown(x)) == x {
      FloorShift(0.5, HalfDown(x));
    }
  }

  /** Taking a stored amount off does not change whether an amount is on the grid. */
  lemma GridShift(x: real, m: int)
    requires x >= 0.0 && x - Usd(m) >= 0.0
    ensures Round6(x - Usd(m)) == Round6(x) - m
    ensures OnGrid(x - Usd(m)) <==> OnGrid(x)
  {
    assert (x - Usd(m)) * 1000000.0 + 0.5 == (-m) as real + (x * 1000000.0 + 0.5);
    FloorShift(x * 1000000.0 + 0.5, -m);
  }

  // ------------------------- a plan charge, foreseen from the rows before it

  /** The micro-dollars of credit a charge takes. */
  function Taken(g: Grant, amount: real): int {
    if amount <= 0.0 || g.remaining <= 0 then 0
    else if amount >= Usd(g.remaining) then g.remaining
    else HalfDown(amount)
  }

  function Rest(g: Grant, amount: real): real { amount - Usd(Taken(g, amount)) }

  /** Credit does not cover the amount, or rounding leaves a rest. */
  predicate NeedsWallet(g: Grant, amount: real) {
    amount > 0.0 && (g.remaining <= 0 || Rest(g, amount) > 0.000000001)
  }

  predicate WalletRefuses(db: Db, user: int, g: Grant, amount: real, f: Faults) {
    !g.overage || f.wallet || db.WalletBalance(user) + 0.000000001 < Rest(g, amount)
  }

  /** The deduction fails before anything is written. */
  predicate ConsumeFails(g: Grant, amount: real, f: Faults) { amount > 0.0 && g.remaining > 0 && f.consume }

  /** The outcome in closed form: how much credit is gone, whether the charge succeeds, and
      what a successful one reports. */
  lemma DrawForeseen(db: Db, user: int, id: nat, amount: real, charge: nat, f: Faults)
    requires Sound(db) && id < |db.grants| && amount >= 0.0
    requires db.grants[id].user == user && (db.grants[id].status == Active || db.grants[id].status == Depleted)
    ensures var (db', out) := Draw(db, user, id, amount, charge, f);
      var g := db.grants[id];
      && db.grants[id].remaining - db'.grants[id].remaining
           == (if ConsumeFails(g, amount, f) then 0 else Taken(g, amount))
      && (out.Charged? <==>
            !ConsumeFails(g, amount, f) && !(NeedsWallet(g, amount) && WalletRefuses(db, user, g, amount, f)))
      && (out.StoreError? <==>
            ConsumeFails(g, amount, f) || (NeedsWallet(g, amount) && g.overage && f.wallet))
      && (out.Charged? ==> out.r.billed == amount && out.r.plan == Usd(Taken(g, amount)))
      && (out.Charged? ==> out.r.wallet == if NeedsWallet(g, amount) then Rest(g, amount) else 0.0)
      && (out.Charged? ==> out.r.grant == if amount > 0.0 && g.remaining > 0 then Some(id) else None)
  {
    var g := db.grants[id];
    if amount > 0.0 && g.remaining > 0 && !f.consume {
      ConsumeTakes(g.remaining, amount);
      ConsumeTakesAll(db, id, user, amount, charge);
      assert g.remaining - Round6(Left(g.remaining, amount)) == Taken(g, amount);
    }
  }

  /** The same for a plan charge as a whole. */
  lemma PlanForeseen(db: Db, user: int, cost: real, now: int, charge: nat, f: Faults)
    requires Sound(db) && cost > 0.0 && ActiveGrant(db, user, now).Some? && !f.grant
    ensures var g := ActiveGrant(db, user, now).value;
      var amount := Price(cost, db.grants[g].ratio);
      && amount >= 0.0 && db.grants[g].EligibleFor(user, now)
      && PlanCharge(db, user, cost, now, charge, f) == Draw(db, user, g, amount, charge, f)
  {
    ActiveGrantIsLatest(db.grants, |db.grants|, user, now);
  }

  /** A successful charge is split without loss: exactly when the wallet pays a share, and
      otherwise within one rounding of the ledger's scale. */
  lemma SplitIsConserved(db: Db, user: int, cost: real, ratio: real, mode: Mode, now: int, charge: nat, f: Faults)
    requires Sound(db) && ratio >= 0.0
    requires ChargeOf(db, user, cost, ratio, mode, now, charge, f).1.Charged?
    ensures SplitWithin(ChargeOf(db, user, cost, ratio, mode, now, charge, f).1.r)
  {
    if cost > 0.0 && mode == PlanMode {
      var id := ActiveGrant(db, user, now).value;
      DrawSplits(db, user, id, Price(cost, db.grants[id].ratio), charge, f);
    }
  }

  ghost predicate SplitWithin(r: Result) {
    && -0.0000005 <= r.billed - (r.plan + r.wallet) <= 0.000000001
    && (r.wallet > 0.0 ==> r.billed == r.plan + r.wallet)
    && r.plan >= 0.0 && r.wallet >= 0.0
  }

  lemma DrawSplits(db: Db, user: int, id: nat, amount: real, charge: nat, f: Faults)
    requires Sound(db) && id < |db.grants| && amount >= 0.0
    requires Draw(db, user, id, amount, charge, f).1.Charged?
    ensures SplitWithin(Draw(db, user, id, amount, charge, f).1.r)
  {
    if amount > 0.0 && db.grants[id].remaining > 0 {
      ConsumeTakes(db.grants[id].remaining, amount);
    }
  }

  /** When the documented equality holds, seen from the row and the amount: nothing is
      billed, no credit is left, credit covers an amount that is on the grid or is rounded
      down by more than the tolerance, or credit falls short by more than the tolerance. */
  predicate SplitsEvenly(g: Grant, amount: real)
    requires amount >= 0.0
  {
    || amount == 0.0 || g.remaining <= 0
    || (amount <= Usd(g.remaining) && (OnGrid(amount) || amount - Usd(HalfDown(amount)) > TOLERANCE))
    || amount - Usd(g.remaining) > TOLERANCE
  }

  /** The documented BilledUSD == PlanUSD + WalletUSD: a payg charge always keeps it, a plan
      charge exactly on those amounts. */
  lemma SplitIsExactIff(db: Db, user: int, cost: real, ratio: real, mode: Mode, now: int, charge: nat, f: Faults)
    requires Sound(db) && ratio >= 0.0 && cost > 0.0
    requires ChargeOf(db, user, cost, ratio, mode, now, charge, f).1.Charged?
    ensures mode == PlanMode ==> ActiveGrant(db, user, now).Some?
    ensures var r := ChargeOf(db, user, cost, ratio, mode, now, charge, f).1.r;
      r.billed == r.plan + r.wallet <==>
        mode == Payg ||
        var g := db.grants[ActiveGrant(db, user, now).value];
        SplitsEvenly(g, Price(cost, g.ratio))
  {
    if mode == PlanMode {
      var g := db.grants[ActiveGrant(db, user, now).value];
      var amount := Price(cost, g.ratio);
      PlanForeseen(db, user, cost, now, charge, f);
      DrawForeseen(db, user, ActiveGrant(db, user, now).value, amount, charge, f);
      GridRounding(amount);
      EvenIff(g, amount);
    }
  }

  lemma EvenIff(g: Grant, amount: real)
    requires amount >= 0.0
    ensures NeedsWallet(g, amount) || Rest(g, amount) == 0.0 <==> SplitsEvenly(g, amount)
  {
    GridRounding(amount);
    if g.remaining > 0 && amount == Usd(g.remaining) {
      FloorShift(0.5, -g.remaining);
    }
  }

  /** A charge that succeeds with unequal sums: 0.8 micro-dollars out of ten. */
  lemma UnevenSplitHappens(g: Grant, user: int, now: int)
    requires g.EligibleFor(user, now) && g.status == Active && g.remaining == 10 && g.granted == 10 && g.ratio == 1.0
    ensures var out := ChargeOf(Db([g], [], map[], map[]), user, 0.0000008, 1.0, PlanMode, now, 0, NO_FAULTS).1;
      out.Charged? && out.r.plan + out.r.wallet == 0.000001 && out.r.billed == 0.0000008
  {
    var db := Db([g], [], map[], map[]);
    OnlyGrantIsActive(g, user, now);
    PlanForeseen(db, user, 0.0000008, now, 0, NO_FAULTS);
    DrawForeseen(db, user, 0, 0.0000008, 0, NO_FAULTS);
    assert HalfDown(0.0000008) == 1;
  }

  lemma OnlyGrantIsActive(g: Grant, user: int, now: int)
    requires g.EligibleFor(user, now)
    ensures ActiveGrant(Db([g], [], map[], map[]), user, now) == Some(0)
  {
    var db := Db([g], [], map[], map[]);
    ActiveGrantIsLatest(db.grants, 1, user, now);
    assert db.grants[0].EligibleFor(user, now);
  }

  /** What the mode bills: the cost at the user's ratio, or at that of the active grant. */
  function Billed(db: Db, user: int, cost: real, ratio: real, mode: Mode, now: int): real {
    if mode == Payg then Price(cost, ratio)
    else
      match ActiveGrant(db, user, now)
      case None => 0.0
      case Some(g) => Price(cost, db.grants[g].ratio)
  }

  /** Every successful charge bills that product, and in plan mode on a row of the user's that
      is in its period. */
  lemma ChargeBillsProduct(db: Db, user: int, cost: real, ratio: real, mode: Mode, now: int, charge: nat, f: Faults)
    requires cost > 0.0 && ChargeOf(db, user, cost, ratio, mode, now, charge, f).1.Charged?
    ensures var billed := ChargeOf(db, user, cost, ratio, mode, now, charge, f).1.r.billed;
      match mode
      case Payg => billed == cost * ratio
      case PlanMode =>
        exists g :: 0 <= g < |db.grants| && IsLatest(db.grants, |db.grants|, user, now, Some(g))
          && billed == cost * db.grants[g].ratio
  {
    if mode == PlanMode {
      ActiveGrantIsLatest(db.grants, |db.grants|, user, now);
      var g := ActiveGrant(db, user, now).value;
      assert IsLatest(db.grants, |db.grants|, user, now, Some(g));
    }
  }

  /** A payg charge in full: the wallet is credits less billed rows, the price must be covered
      up to a billionth of a dollar, and nothing is written. */
  lemma PaygMeaning(db: Db, user: int, cost: real, ratio: real, now: int, charge: nat, f: Faults)
    requires cost > 0.0
    ensures var (db', out) := ChargeOf(db, user, cost, ratio, Payg, now, charge, f);
      var credits := if user in db.credits then db.credits[user] else 0;
      var billed := if user in db.billed then db.billed[user] else 0;
      && db' == db
      && (out.StoreError? <==> cost * ratio > 0.0 && f.wallet)
      && (out.Insufficient? <==>
            cost * ratio > 0.0 && !f.wallet && (credits - billed) as real / 1000000.0 + 0.000000001 < cost * ratio)
      && (out.Charged? ==> out.r == Result(cost * ratio, 0.0, if cost * ratio > 0.0 then cost * ratio else 0.0, None))
  {
  }

  /** A plan charge without a readable grant row: an error, or a refusal when there is none. */
  lemma PlanRefusals(db: Db, user: int, cost: real, ratio: real, now: int, charge: nat, f: Faults)
    requires cost > 0.0 && (f.grant || forall j :: 0 <= j < |db.grants| ==> PassedOver(db.grants[j], user, now))
    ensures ChargeOf(db, user, cost, ratio, PlanMode, now, charge, f)
      == (db, if f.grant then StoreError else Insufficient)
  {
    ActiveGrantIsLatest(db.grants, |db.grants|, user, now);
  }

  /** The one way an admitted charge is refused: credit covers it, but rounding to the
      stored scale leaves a remainder that the wallet may not or cannot pay. */
  ghost predicate RoundingRefuses(db: Db, user: int, mode: Mode, now: int, amount: real) {
    && mode == PlanMode && ActiveGrant(db, user, now).Some?
    && var g := db.grants[ActiveGrant(db, user, now).value];
       var rest := amount - Usd(HalfDown(amount));
       && g.remaining > 0 && amount <= Usd(g.remaining)
       && rest > TOLERANCE
       && !(g.overage && db.WalletBalance(user) + TOLERANCE >= rest)
  }

  /** On one snapshot, an available balance that covers the amount makes the charge
      succeed, except for exactly the rounding refusals. */
  lemma GateAgreesWithCharge(db: Db, user: int, cost: real, ratio: real, mode: Mode, now: int, charge: nat)
    requires Sound(db) && cost > 0.0
    requires Billed(db, user, cost, ratio, mode, now) > 0.0
    requires Available(db, user, mode, now) >= Billed(db, user, cost, ratio, mode, now)
    ensures ChargeOf(db, user, cost, ratio, mode, now, charge, NO_FAULTS).1.Charged?
       <==> !RoundingRefuses(db, user, mode, now, Billed(db, user, cost, ratio, mode, now))
  {
    if mode == PlanMode {
      var id := ActiveGrant(db, user, now).value;
      ActiveGrantIsLatest(db.grants, |db.grants|, user, now);
      DrawSucceeds(db, user, id, now, Price(cost, db.grants[id].ratio), charge);
    }
  }

  lemma DrawSucceeds(db: Db, user: int, id: nat, now: int, amount: real, charge: nat)
    requires Sound(db) && amount > 0.0 && ActiveGrant(db, user, now) == Some(id)
    requires db.grants[id].EligibleFor(user, now)
    requires Available(db, user, PlanMode, now) >= amount
    ensures Draw(db, user, id, amount, charge, NO_FAULTS).1.Charged?
       <==> !RoundingRefuses(db, user, PlanMode, now, amount)
  {
    var g := db.grants[id];
    ConsumeTakes(g.remaining, amount);
    if g.remaining > 0 {
      ConsumeTakesAll(db, id, user, amount, charge);
    }
  }

  /** Consume on an active row with credit, in terms of what the row loses. */
  lemma ConsumeTakesAll(db: Db, id: nat, user: int, amount: real, charge: nat)
    requires Sound(db) && id < |db.grants| && amount > 0.0
    requires db.grants[id].user == user && db.grants[id].status == Active
    ensures var (db', used) := Consume(db, id, user, amount, charge);
      && used == db.grants[id].remaining - Round6(Left(db.grants[id].remaining, amount))
      && db'.WalletBalance(user) == db.WalletBalance(user)
  {
    ConsumeTakes(db.grants[id].remaining, amount);
  }

  /** On the six-decimal grid there are no rounding refusals. */
  lemma NoRefusalOnGrid(db: Db, user: int, mode: Mode, now: int, micros: int)
    ensures HalfDown(Usd(micros)) == micros
    ensures !RoundingRefuses(db, user, mode, now, Usd(micros))
  {
    FloorShift(0.5, -micros);
  }

  /** The refusal is real: ample credit, no overage, an amount half a micro-dollar off the
      grid. The credit is consumed and the charge still rejected. */
  lemma RoundingRefusalHappens(g: Grant, user: int, now: int)
    requires g.EligibleFor(user, now) && g.status == Active && g.remaining >= 2
    requires g.granted >= g.remaining && g.ratio == 1.0 && !g.overage
    ensures var db := Db([g], [], map[], map[]);
      var (db', out) := ChargeOf(db, user, 0.0000015, 1.0, PlanMode, now, 0, NO_FAULTS);
      && Sound(db) && Available(db, user, PlanMode, now) >= 0.0000015
      && out == Insufficient && db'.ledger == [Entry(0, user, 1, 0)]
  {
    OnlyGrantIsActive(g, user, now);
    ConsumeTakes(g.remaining, 0.0000015);
    assert HalfDown(0.0000015) == 1;
  }

  /** Conversely a successful charge was covered, up to the tolerance and, where the wallet
      is part of the balance but pays nothing, to any debt already in it. */
  lemma ChargeImpliesCovered(db: Db, user: int, cost: real, ratio: real, mode: Mode, now: int, charge: nat)
    requires Sound(db) && cost > 0.0 && ratio >= 0.0
    requires ChargeOf(db, user, cost, ratio, mode, now, charge, NO_FAULTS).1.Charged?
    ensures Available(db, user, mode, now) >=
      Billed(db, user, cost, ratio, mode, now) - TOLERANCE
        + IdleDebt(db, user, mode, now, Billed(db, user, cost, ratio, mode, now))
  {
    if mode == PlanMode {
      var id := ActiveGrant(db, user, now).value;
      PlanForeseen(db, user, cost, now, charge, NO_FAULTS);
      DrawForeseen(db, user, id, Price(cost, db.grants[id].ratio), charge, NO_FAULTS);
    }
  }

  /** The wallet's debt, when it lowers the balance although the amount does not need the
      wallet; 0 otherwise. */
  function IdleDebt(db: Db, user: int, mode: Mode, now: int, amount: real): real {
    var w := db.WalletBalance(user);
    if w >= 0.0 || !WalletCounts(db, user, mode, now) then 0.0
    else if mode == Payg then (if amount > 0.0 then 0.0 else w)
    else if NeedsWallet(db.grants[ActiveGrant(db, user, now).value], amount) then 0.0
    else w
  }

  /** A plan key without an active grant has nothing available and is always refused. */
  lemma NoGrantNoCharge(db: Db, user: int, cost: real, ratio: real, now: int, charge: nat)
    requires cost > 0.0
    requires forall j :: 0 <= j < |db.grants| ==> PassedOver(db.grants[j], user, now)
    ensures Available(db, user, PlanMode, now) == 0.0
    ensures ChargeOf(db, user, cost, ratio, PlanMode, now, charge, NO_FAULTS) == (db, Insufficient)
  {
    ActiveGrantIsLatest(db.grants, |db.grants|, user, now);
  }
}
