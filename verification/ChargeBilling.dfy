/** internal/handler/gateway/billing.go: where a completed request's charge, the database
    and the cached balances meet. */
module ChargeBilling {
  import opened Common
  import opened Billing
  import opened BalanceCache

  datatype ApiKey = ApiKey(user: Option<int>, mode: Option<Mode>, ratio: real)

  /** An unset mode bills as payg. */
  function KeyMode(k: ApiKey): Mode { if k.mode == Some(PlanMode) then PlanMode else Payg }

  const NOTHING := Result(0.0, 0.0, 0.0, None)

  /** What the request row records, given how the charge ended; None when billing is off.
      A failed payg charge still debits the wallet, a failed plan charge never does. */
  function Recorded(k: ApiKey, cost: real, out: Option<Outcome>): Result {
    var billed := Price(cost, k.ratio);
    match out
    case Some(Charged(r)) => r
    case None => Result(billed, 0.0, billed, None)
    case _ => if KeyMode(k) == PlanMode then Result(billed, 0.0, 0.0, None) else Result(billed, 0.0, billed, None)
  }

  function ChargeFor(db: Db, k: ApiKey, cost: real, now: int, charge: nat, f: Faults): (Db, Outcome)
    requires k.user.Some?
  {
    ChargeOf(db, k.user.value, cost, k.ratio, KeyMode(k), now, charge, f)
  }

  /** Limiter.RecordBillingSpend: plan money lowers the plan balance, wallet money both. */
  function SpendFolded(es: Entries, user: int, plan: real, wallet: real): Entries {
    var afterPlan := if plan > 0.0 then Folded(es, {Balance(user, PlanMode)}, -plan) else es;
    if wallet > 0.0 then Folded(afterPlan, BothModes(user), -wallet) else afterPlan
  }

  method RecordBillingSpend(cache: Cache?, user: int, plan: real, wallet: real)
    modifies if cache == null then {} else {cache}
    ensures cache != null ==> cache.entries == SpendFolded(old(cache.entries), user, plan, wallet)
  {
    if cache == null {
      return;
    }
    if plan > 0.0 {
      cache.ChargePlan(user, plan);
    }
    if wallet > 0.0 {
      cache.ChargeWallet(user, wallet);
    }
  }

  /** Whatever path is taken, the cached balances fall by exactly the plan and wallet money
      that the result reports. */
  method ChargeBilling(k: Option<ApiKey>, cost: Option<real>, charger: Service?, cache: Cache?,
                       now: int, charge: nat, f: Faults)
    returns (r: Result)
    modifies if charger == null then {} else {charger.store}
    modifies if cache == null then {} else {cache}
    ensures k.None? || k.value.user.None? || cost.None? || cost.value <= 0.0 ==>
      && r == Result(0.0, 0.0, 0.0, None)
      && (charger != null ==> charger.store.db == old(charger.store.db))
      && (cache != null ==> cache.entries == old(cache.entries))
    ensures k.Some? && k.value.user.Some? && cost.Some? && cost.value > 0.0 ==>
      && (charger != null ==>
            && charger.store.db == ChargeFor(old(charger.store.db), k.value, cost.value, now, charge, f).0
            && r == Recorded(k.value, cost.value,
                 Some(ChargeFor(old(charger.store.db), k.value, cost.value, now, charge, f).1)))
      && (charger == null ==> r == Recorded(k.value, cost.value, None))
      && (cache != null ==> cache.entries == SpendFolded(old(cache.entries), k.value.user.value, r.plan, r.wallet))
  {
    if k.None? || k.value.user.None? || cost.None? || cost.value <= 0.0 {
      return NOTHING;
    }
    var mode := if k.value.mode == Some(PlanMode) then PlanMode else Payg;
    var user := k.value.user.value;
    if charger == null {
      var billed := Price(cost.value, k.value.ratio);
      RecordBillingSpend(cache, user, 0.0, billed);
      return Result(billed, 0.0, billed, None);
    }
    var out := charger.Charge(user, cost.value, k.value.ratio, mode, now, charge, f);
    if !out.Charged? {
      var billed := Price(cost.value, k.value.ratio);
      if mode == PlanMode {
        return Result(billed, 0.0, 0.0, None);
      }
      RecordBillingSpend(cache, user, 0.0, billed);
      return Result(billed, 0.0, billed, None);
    }
    RecordBillingSpend(cache, user, out.r.plan, out.r.wallet);
    return out.r;
  }

  /** What the row records when no charge succeeded: the cost at the key's ratio, on the wallet
      unless the key is a plan key whose charge failed. */
  lemma RecordedMeaning(k: ApiKey, cost: real, out: Option<Outcome>)
    ensures out.None? || !out.value.Charged? ==>
      Recorded(k, cost, out) ==
        Result(cost * k.ratio, 0.0, if out.Some? && k.mode == Some(PlanMode) then 0.0 else cost * k.ratio, None)
    ensures out.Some? && out.value.Charged? ==> Recorded(k, cost, out) == out.value.r
  {
  }

  // ------------------------------------------------- does the cache follow the truth?

  /** The database once the request row has been stored; its column keeps the wallet share
      at six decimals. */
  function WithRow(db: Db, user: int, r: Result): Db
    requires r.wallet >= 0.0
  {
    db.(billed := db.billed[user := Amount(db.billed, user) + Round6(r.wallet)])
  }

  /** What folding a result takes off one of the user's cached balances. */
  function Fold(r: Result, mode: Mode): real {
    (if r.wallet > 0.0 then r.wallet else 0.0) + if mode == PlanMode && r.plan > 0.0 then r.plan else 0.0
  }

  /** Folding changes exactly the user's two balances, by their shares. */
  lemma FoldTakes(es: Entries, user: int, r: Result, k: Key)
    requires k in es
    ensures k in SpendFolded(es, user, r.plan, r.wallet)
    ensures SpendFolded(es, user, r.plan, r.wallet)[k]
         == es[k].(usd := es[k].usd - if k.Balance? && k.user == user then Fold(r, k.mode) else 0.0)
  {
  }

  /** What the database says of a balance less what the cache says. */
  function Error(db: Db, es: Entries, user: int, mode: Mode, now: int): real
    requires Balance(user, mode) in es
  {
    Available(db, user, mode, now) - es[Balance(user, mode)].usd
  }

  /** Billing a result, in the database and in the cache, leaves the error what it was. */
  ghost predicate SameError(db: Db, db': Db, es: Entries, user: int, mode: Mode, now: int, r: Result)
    requires Balance(user, mode) in es && r.wallet >= 0.0
  {
    var es' := SpendFolded(es, user, r.plan, r.wallet);
    && Balance(user, mode) in es'
    && Error(WithRow(db', user, r), es', user, mode, now) == Error(db, es, user, mode, now)
  }

  lemma SameErrorIff(db: Db, db': Db, es: Entries, user: int, mode: Mode, now: int, r: Result)
    requires Balance(user, mode) in es && r.wallet >= 0.0
    ensures SameError(db, db', es, user, mode, now, r) <==>
      Available(WithRow(db', user, r), user, mode, now) == Available(db, user, mode, now) - Fold(r, mode)
  {
    FoldTakes(es, user, r, Balance(user, mode));
  }

  /** Deducting credit, depleting or not, leaves the grant the active one. */
  lemma {:induction false} ActiveGrantStays(grants: seq<Grant>, n: nat, id: nat, row: Grant, user: int, now: int)
    requires n <= |grants| && id < |grants|
    requires row.EligibleFor(user, now) && grants[id].EligibleFor(user, now) && row.startsAt == grants[id].startsAt
    ensures LatestActive(grants[id := row], n, user, now) == LatestActive(grants, n, user, now)
  {
    if n > 0 {
      ActiveGrantStays(grants, n - 1, id, row, user, now);
    }
  }

  /** Any draw keeps the active grant, its terms and the wallet. */
  lemma DrawKeepsSelection(db: Db, user: int, id: nat, amount: real, now: int, charge: nat, f: Faults)
    requires Sound(db) && amount >= 0.0 && ActiveGrant(db, user, now) == Some(id)
    requires db.grants[id].EligibleFor(user, now)
    ensures var db' := Draw(db, user, id, amount, charge, f).0;
      && ActiveGrant(db', user, now) == Some(id) && id < |db'.grants|
      && db'.credits == db.credits && db'.billed == db.billed
      && db'.grants[id].overage == db.grants[id].overage
  {
    var db' := Draw(db, user, id, amount, charge, f).0;
    if db' != db {
      ActiveGrantStays(db.grants, |db.grants|, id, db'.grants[id], user, now);
    }
  }

  // What the rows and the arguments say before a plan charge.

  /** The grant a plan charge draws on, if its row can be read. */
  function Drawing(db: Db, user: int, now: int, f: Faults): Option<Grant> {
    if f.grant || ActiveGrant(db, user, now).None? then None
    else Some(db.grants[ActiveGrant(db, user, now).value])
  }

  /** Credit is taken and the charge refused all the same: a part that only the wallet could
      pay, which it may not, cannot or cannot be asked to. */
  predicate LosesCredit(db: Db, user: int, cost: real, now: int, f: Faults) {
    match Drawing(db, user, now, f)
    case None => false
    case Some(g) =>
      var amount := Price(cost, g.ratio);
      && amount > 0.0 && g.remaining > 0 && !f.consume
      && Taken(g, amount) > 0 && Rest(g, amount) > TOLERANCE && WalletRefuses(db, user, g, amount, f)
  }

  /** A share for the wallet, which pays it. */
  predicate WalletPays(db: Db, user: int, cost: real, now: int, f: Faults) {
    match Drawing(db, user, now, f)
    case None => false
    case Some(g) =>
      var amount := Price(cost, g.ratio);
      !ConsumeFails(g, amount, f) && NeedsWallet(g, amount) && !WalletRefuses(db, user, g, amount, f)
  }

  function PlanAmount(db: Db, user: int, cost: real, now: int): real {
    match ActiveGrant(db, user, now)
    case None => 0.0
    case Some(g) => Price(cost, db.grants[g].ratio)
  }

  /** What the two balances really lose to a result: in the plan mode the credit taken and,
      rounded as stored, the wallet share; in payg the latter alone. Lost credit is taken
      without being reported. */
  ghost predicate Loses(payg: real, payg': real, plan: real, plan': real, r: Result, lost: bool) {
    && r.wallet >= 0.0 && r.plan >= 0.0
    && payg' == payg - Usd(Round6(r.wallet))
    && (!lost ==> plan' == plan - r.plan - Usd(Round6(r.wallet)))
    && (lost ==> r.plan == 0.0 && r.wallet == 0.0 && plan' < plan)
  }

  /** What a plan charge reports as the wallet's share. */
  ghost predicate ReportsShare(db: Db, user: int, cost: real, now: int, f: Faults, r: Result) {
    r.wallet ==
      if WalletPays(db, user, cost, now, f)
      then Rest(db.grants[ActiveGrant(db, user, now).value], PlanAmount(db, user, cost, now)) else 0.0
  }

  lemma PlanLosses(db: Db, k: ApiKey, cost: real, now: int, charge: nat, f: Faults)
    requires Sound(db) && k.user.Some? && cost > 0.0 && k.ratio >= 0.0 && KeyMode(k) == PlanMode
    ensures var user := k.user.value;
      var (db', out) := ChargeFor(db, k, cost, now, charge, f);
      var r := Recorded(k, cost, Some(out));
      && r.wallet >= 0.0 && ReportsShare(db, user, cost, now, f, r)
      && Loses(Available(db, user, Payg, now), Available(WithRow(db', user, r), user, Payg, now),
               Available(db, user, PlanMode, now), Available(WithRow(db', user, r), user, PlanMode, now),
               r, LosesCredit(db, user, cost, now, f))
  {
    var user := k.user.value;
    if Drawing(db, user, now, f).Some? {
      var id := ActiveGrant(db, user, now).value;
      var amount := PlanAmount(db, user, cost, now);
      PlanForeseen(db, user, cost, now, charge, f);
      DrawForeseen(db, user, id, amount, charge, f);
      DrawKeepsSelection(db, user, id, amount, now, charge, f);
      TakenIsNatural(db.grants[id], amount);
    } else if ActiveGrant(db, user, now).Some? {
      PlanForeseen(db, user, cost, now, charge, NO_FAULTS);
    }
  }

  lemma TakenIsNatural(g: Grant, amount: real)
    requires amount >= 0.0
    ensures Taken(g, amount) >= 0 && (NeedsWallet(g, amount) ==> Rest(g, amount) > 0.0)
  {
  }

  /** A cached payg balance stays as right as it was exactly when the wallet share is on the
      six-decimal grid: for a payg key its price, for a plan key the amount, if the wallet
      pays at all. */
  lemma PaygFoldIsExactIff(db: Db, es: Entries, k: ApiKey, cost: real, now: int, charge: nat, f: Faults)
    requires Sound(db) && k.user.Some? && cost > 0.0 && k.ratio >= 0.0 && Balance(k.user.value, Payg) in es
    ensures var user := k.user.value;
      var (db', out) := ChargeFor(db, k, cost, now, charge, f);
      var r := Recorded(k, cost, Some(out));
      && r.wallet >= 0.0 && PlanAmount(db, user, cost, now) >= 0.0
      && (SameError(db, db', es, user, Payg, now, r)
          <==> if KeyMode(k) == Payg then OnGrid(Price(cost, k.ratio))
               else WalletPays(db, user, cost, now, f) ==> OnGrid(PlanAmount(db, user, cost, now)))
  {
    var (db', out) := ChargeFor(db, k, cost, now, charge, f);
    PaygFoldTakes(db, k, cost, now, charge, f);
    SameErrorIff(db, db', es, k.user.value, Payg, now, Recorded(k, cost, Some(out)));
  }

  lemma PaygFoldTakes(db: Db, k: ApiKey, cost: real, now: int, charge: nat, f: Faults)
    requires Sound(db) && k.user.Some? && cost > 0.0 && k.ratio >= 0.0
    ensures var user := k.user.value;
      var (db', out) := ChargeFor(db, k, cost, now, charge, f);
      var r := Recorded(k, cost, Some(out));
      && r.wallet >= 0.0
      && PlanAmount(db, user, cost, now) >= 0.0
      && (Available(WithRow(db', user, r), user, Payg, now) == Available(db, user, Payg, now) - Fold(r, Payg)
          <==> if KeyMode(k) == Payg then OnGrid(Price(cost, k.ratio))
               else WalletPays(db, user, cost, now, f) ==> OnGrid(PlanAmount(db, user, cost, now)))
  {
    AmountIsNatural(db, k.user.value, cost, now);
    if KeyMode(k) == PlanMode {
      PaygFoldOfPlanKey(db, k, cost, now, charge, f);
    }
  }

  lemma PaygFoldOfPlanKey(db: Db, k: ApiKey, cost: real, now: int, charge: nat, f: Faults)
    requires Sound(db) && k.user.Some? && cost > 0.0 && k.ratio >= 0.0 && KeyMode(k) == PlanMode
    requires PlanAmount(db, k.user.value, cost, now) >= 0.0
    ensures var user := k.user.value;
      var (db', out) := ChargeFor(db, k, cost, now, charge, f);
      var r := Recorded(k, cost, Some(out));
      && r.wallet >= 0.0
      && (Available(WithRow(db', user, r), user, Payg, now) == Available(db, user, Payg, now) - Fold(r, Payg)
          <==> (WalletPays(db, user, cost, now, f) ==> OnGrid(PlanAmount(db, user, cost, now))))
  {
    var (db', out) := ChargeFor(db, k, cost, now, charge, f);
    var user, r := k.user.value, Recorded(k, cost, Some(out));
    PlanLosses(db, k, cost, now, charge, f);
    GridOfShare(db, user, cost, now, f, r);
    ExactWhen(Available(db, user, Payg, now), Available(WithRow(db', user, r), user, Payg, now),
              Available(db, user, PlanMode, now), Available(WithRow(db', user, r), user, PlanMode, now),
              r, LosesCredit(db, user, cost, now, f));
  }

  /** The arithmetic of both balances. */
  lemma ExactWhen(payg: real, payg': real, plan: real, plan': real, r: Result, lost: bool)
    requires Loses(payg, payg', plan, plan', r, lost)
    ensures payg' == payg - Fold(r, Payg) <==> OnGrid(r.wallet)
    ensures plan' == plan - Fold(r, PlanMode) <==> !lost && OnGrid(r.wallet)
  {
    assert OnGrid(0.0);
  }

  lemma AmountIsNatural(db: Db, user: int, cost: real, now: int)
    requires Sound(db) && cost > 0.0
    ensures PlanAmount(db, user, cost, now) >= 0.0
  {
    if ActiveGrant(db, user, now).Some? {
      ActiveGrantIsLatest(db.grants, |db.grants|, user, now);
    }
  }

  /** The wallet's share is on the grid exactly when the whole amount is. */
  lemma GridOfShare(db: Db, user: int, cost: real, now: int, f: Faults, r: Result)
    requires Sound(db) && cost > 0.0 && ReportsShare(db, user, cost, now, f, r) && r.wallet >= 0.0
    ensures PlanAmount(db, user, cost, now) >= 0.0
    ensures OnGrid(r.wallet) <==> (WalletPays(db, user, cost, now, f) ==> OnGrid(PlanAmount(db, user, cost, now)))
  {
    AmountIsNatural(db, user, cost, now);
    if WalletPays(db, user, cost, now, f) {
      var g, amount := db.grants[ActiveGrant(db, user, now).value], PlanAmount(db, user, cost, now);
      GridShift(amount, Taken(g, amount));
    } else {
      assert OnGrid(0.0);
    }
  }

  /** Off the grid the error moves by at most half a micro-dollar. */
  lemma PaygFoldIsClose(db: Db, es: Entries, k: ApiKey, cost: real, now: int, charge: nat, f: Faults)
    requires Sound(db) && k.user.Some? && cost > 0.0 && k.ratio >= 0.0 && Balance(k.user.value, Payg) in es
    ensures var user := k.user.value;
      var (db', out) := ChargeFor(db, k, cost, now, charge, f);
      var r := Recorded(k, cost, Some(out));
      var es' := SpendFolded(es, user, r.plan, r.wallet);
      && r.wallet >= 0.0 && Balance(user, Payg) in es'
      && -0.0000005 <= Error(WithRow(db', user, r), es', user, Payg, now) - Error(db, es, user, Payg, now) <= 0.0000005
  {
    var (_, out) := ChargeFor(db, k, cost, now, charge, f);
    FoldTakes(es, k.user.value, Recorded(k, cost, Some(out)), Balance(k.user.value, Payg));
    if KeyMode(k) == PlanMode {
      PlanLosses(db, k, cost, now, charge, f);
    }
  }

  /** A cached plan balance stays as right as it was over a plan charge exactly when no credit
      is lost to a refusal and the amount, if the wallet pays a share of it, is on the grid. */
  lemma PlanFoldIsExactIff(db: Db, es: Entries, k: ApiKey, cost: real, now: int, charge: nat, f: Faults)
    requires Sound(db) && k.user.Some? && cost > 0.0 && k.ratio >= 0.0 && KeyMode(k) == PlanMode
    requires Balance(k.user.value, PlanMode) in es
    ensures var user := k.user.value;
      var (db', out) := ChargeFor(db, k, cost, now, charge, f);
      var r := Recorded(k, cost, Some(out));
      && r.wallet >= 0.0 && PlanAmount(db, user, cost, now) >= 0.0
      && (SameError(db, db', es, user, PlanMode, now, r)
          <==> !LosesCredit(db, user, cost, now, f)
               && (WalletPays(db, user, cost, now, f) ==> OnGrid(PlanAmount(db, user, cost, now))))
  {
    var (db', out) := ChargeFor(db, k, cost, now, charge, f);
    PlanFoldTakes(db, k, cost, now, charge, f);
    SameErrorIff(db, db', es, k.user.value, PlanMode, now, Recorded(k, cost, Some(out)));
  }

  lemma PlanFoldTakes(db: Db, k: ApiKey, cost: real, now: int, charge: nat, f: Faults)
    requires Sound(db) && k.user.Some? && cost > 0.0 && k.ratio >= 0.0 && KeyMode(k) == PlanMode
    ensures var user := k.user.value;
      var (db', out) := ChargeFor(db, k, cost, now, charge, f);
      var r := Recorded(k, cost, Some(out));
      && r.wallet >= 0.0 && PlanAmount(db, user, cost, now) >= 0.0
      && (Available(WithRow(db', user, r), user, PlanMode, now)
            == Available(db, user, PlanMode, now) - Fold(r, PlanMode)
          <==> !LosesCredit(db, user, cost, now, f)
               && (WalletPays(db, user, cost, now, f) ==> OnGrid(PlanAmount(db, user, cost, now))))
  {
    var (db', out) := ChargeFor(db, k, cost, now, charge, f);
    var user, r := k.user.value, Recorded(k, cost, Some(out));
    PlanLosses(db, k, cost, now, charge, f);
    GridOfShare(db, user, cost, now, f, r);
    ExactWhen(Available(db, user, Payg, now), Available(WithRow(db', user, r), user, Payg, now),
              Available(db, user, PlanMode, now), Available(WithRow(db', user, r), user, PlanMode, now),
              r, LosesCredit(db, user, cost, now, f));
  }

  /** A payg charge lowers the cached plan balance too, which leaves it as right as it was if
      and only if nothing is billed, or the active grant may spend the wallet and the price is
      on the grid. */
  lemma PaygChargeOnPlanBalance(db: Db, es: Entries, k: ApiKey, cost: real, now: int, charge: nat, f: Faults)
    requires Sound(db) && k.user.Some? && cost > 0.0 && k.ratio >= 0.0 && KeyMode(k) == Payg
    requires Balance(k.user.value, PlanMode) in es
    ensures var (db', out) := ChargeFor(db, k, cost, now, charge, f);
      var r := Recorded(k, cost, Some(out));
      var g := ActiveGrant(db, k.user.value, now);
      && db' == db && r.wallet >= 0.0
      && (SameError(db, db, es, k.user.value, PlanMode, now, r)
          <==> Price(cost, k.ratio) == 0.0 || (g.Some? && db.grants[g.value].overage && OnGrid(Price(cost, k.ratio))))
  {
    var (_, out) := ChargeFor(db, k, cost, now, charge, f);
    PaygChargeTakes(db, k, cost, now, charge, f);
    SameErrorIff(db, db, es, k.user.value, PlanMode, now, Recorded(k, cost, Some(out)));
  }

  lemma PaygChargeTakes(db: Db, k: ApiKey, cost: real, now: int, charge: nat, f: Faults)
    requires Sound(db) && k.user.Some? && cost > 0.0 && k.ratio >= 0.0 && KeyMode(k) == Payg
    ensures var (db', out) := ChargeFor(db, k, cost, now, charge, f);
      var r := Recorded(k, cost, Some(out));
      var g := ActiveGrant(db, k.user.value, now);
      && db' == db && r.wallet >= 0.0
      && (Available(WithRow(db, k.user.value, r), k.user.value, PlanMode, now)
            == Available(db, k.user.value, PlanMode, now) - Fold(r, PlanMode)
          <==> Price(cost, k.ratio) == 0.0 || (g.Some? && db.grants[g.value].overage && OnGrid(Price(cost, k.ratio))))
  {
    assert OnGrid(0.0);
  }

  // ----------------------------------------------------------- where it goes wrong

  /** Four tenths of a micro-dollar: folded, but stored as nothing. */
  lemma OffGridFoldMisses(user: int, now: int)
    ensures var db := Db([], [], map[user := 1000000], map[]);
      var k := ApiKey(Some(user), None, 1.0);
      var (db', out) := ChargeFor(db, k, 0.0000004, now, 0, NO_FAULTS);
      && out == Charged(Result(0.0000004, 0.0, 0.0000004, None))
      && Available(WithRow(db', user, out.r), user, Payg, now) == Available(db, user, Payg, now) == 1.0
      && Fold(out.r, Payg) == 0.0000004
  {
    assert Price(0.0000004, 1.0) == 0.0000004;
    assert Round6(0.0000004) == 0;
  }

  /** One micro-dollar of credit, five to pay and no overage: the credit goes, the charge is
      refused and the cache keeps the old balance. */
  lemma LostCreditMissesCache(g: Grant, user: int, now: int)
    requires g.EligibleFor(user, now) && g.status == Active && g.remaining == 1 && g.granted == 1
    requires g.ratio == 1.0 && !g.overage
    ensures var db := Db([g], [], map[], map[]);
      var k := ApiKey(Some(user), Some(PlanMode), 1.0);
      var (db', out) := ChargeFor(db, k, 0.000005, now, 0, NO_FAULTS);
      var r := Recorded(k, 0.000005, Some(out));
      && out == Insufficient && r.wallet == 0.0 && Fold(r, PlanMode) == 0.0
      && Available(db, user, PlanMode, now) == 0.000001
      && Available(WithRow(db', user, r), user, PlanMode, now) == 0.0
  {
    var db := Db([g], [], map[], map[]);
    var k := ApiKey(Some(user), Some(PlanMode), 1.0);
    OnlyGrantIsActive(g, user, now);
    PlanForeseen(db, user, 0.000005, now, 0, NO_FAULTS);
    DrawForeseen(db, user, 0, 0.000005, 0, NO_FAULTS);
    DrawKeepsSelection(db, user, 0, 0.000005, now, 0, NO_FAULTS);
    assert Taken(g, 0.000005) == 1;
    assert Round6(0.0) == 0;
  }

  /** A dollar charged to a payg key of a user without a grant: the plan balance is and stays
      0, the cached one falls. */
  lemma PaygChargeMissesPlan(user: int, now: int)
    ensures var db := Db([], [], map[user := 2000000], map[]);
      var k := ApiKey(Some(user), None, 1.0);
      var (db', out) := ChargeFor(db, k, 1.0, now, 0, NO_FAULTS);
      && out == Charged(Result(1.0, 0.0, 1.0, None))
      && Available(db, user, PlanMode, now) == Available(WithRow(db', user, out.r), user, PlanMode, now) == 0.0
      && Fold(out.r, PlanMode) == 1.0
  {
    assert Price(1.0, 1.0) == 1.0;
  }
}
