/** Concurrent charges against one database, one statement a step. ConsumeGrantCredit is one
    step because it holds the row lock; a charge as a whole is not, nor is the reading of the
    wallet, so other charges, top-ups, stored rows and new grants may come between. */
module BillingRuns {
  import opened Common
  import opened Billing

  /** Where a charge stands. `amount` is what it bills. */
  datatype Pc =
    | Starting(user: int, cost: real, ratio: real, mode: Mode)
    | Selected(user: int, grant: nat, amount: real, snapshot: int)     // grant row read
    | Drawn(user: int, grant: nat, amount: real, used: int, drew: bool)  // past the deduction, if any
    | Credited(mode: Mode, user: int, drawnOn: Option<nat>, used: int, r: Result, due: real, credits: int)
        // wallet credits read, billed rows not yet
    | Done(mode: Mode, drawnOn: Option<nat>, used: int, out: Outcome)
  {
    function ModeOf(): Mode {
      match this
      case Starting(_, _, _, m) => m
      case Done(m, _, _, _) => m
      case Credited(m, _, _, _, _, _, _) => m
      case _ => PlanMode
    }

    /** Micro-dollars of plan credit this charge has consumed so far. */
    function Used(): int { if Drawn? || Credited? || Done? then used else 0 }
  }

  datatype State = State(db: Db, charges: map<nat, Pc>)

  datatype Action =
    | GrantPlan(user: int, plan: Plan, startsAt: int)
    | TopUp(user: int, micros: int)
    | StoreRow(user: int, micros: int)    // a request row reaches the database
    | Begin(t: nat, user: int, cost: real, ratio: real, mode: Mode)
    | Advance(t: nat, now: int, fault: bool)

  const INIT := State(Db([], [], map[], map[]), map[])

  function Next(s: State, a: Action): State {
    match a
    case GrantPlan(user, plan, startsAt) =>
      if plan.credit < 0.0 || plan.ratio < 0.0 then s
      else s.(db := s.db.(grants := s.db.grants + [NewGrant(user, plan, startsAt)]))
    case TopUp(user, amount) =>
      s.(db := s.db.(credits := s.db.credits[user := Amount(s.db.credits, user) + amount]))
    case StoreRow(user, w) =>
      s.(db := s.db.(billed := s.db.billed[user := Amount(s.db.billed, user) + w]))
    case Begin(t, user, cost, ratio, mode) =>
      if t in s.charges || cost <= 0.0 || ratio < 0.0 then s
      else s.(charges := s.charges[t := Starting(user, cost, ratio, mode)])
    case Advance(t, now, fault) =>
      if t !in s.charges then s
      else
        var (db, pc) := Step(s.db, t, s.charges[t], now, fault);
        State(db, s.charges[t := pc])
  }

  /** The charge's next store access. */
  function Step(db: Db, t: nat, pc: Pc, now: int, fault: bool): (Db, Pc) {
    match pc
    case Starting(user, cost, ratio, Payg) =>
      var amount := Price(cost, ratio);
      var r := Result(amount, 0.0, 0.0, None);
      (db, if amount <= 0.0 then Done(Payg, None, 0, Charged(r))
           else if fault then Done(Payg, None, 0, StoreError)
           else Credited(Payg, user, None, 0, r, amount, Amount(db.credits, user)))
    case Starting(user, cost, _, PlanMode) =>
      if fault then (db, Done(PlanMode, None, 0, StoreError))
      else (match ActiveGrant(db, user, now)
            case None => (db, Done(PlanMode, None, 0, Insufficient))
            case Some(g) =>
              var amount := Price(cost, db.grants[g].ratio);
              if amount <= 0.0 then (db, Done(PlanMode, Some(g), 0, Charged(Result(amount, 0.0, 0.0, None))))
              else (db, Selected(user, g, amount, db.grants[g].remaining)))
    case Selected(user, g, amount, snapshot) =>
      if snapshot <= 0 then (db, Drawn(user, g, amount, 0, false))
      else if fault then (db, Done(PlanMode, Some(g), 0, StoreError))
      else
        var (db', used) := Consume(db, g, user, amount, t);
        var r := Result(amount, Usd(used), 0.0, Some(g));
        if amount - Usd(used) <= TOLERANCE then (db', Done(PlanMode, Some(g), used, Charged(r)))
        else (db', Drawn(user, g, amount, used, true))
    case Drawn(user, g, amount, used, drew) =>
      var r := Result(amount, Usd(used), 0.0, if drew then Some(g) else None);
      (db, if g >= |db.grants| then pc
           else if !db.grants[g].overage then Done(PlanMode, Some(g), used, Insufficient)
           else if fault then Done(PlanMode, Some(g), used, StoreError)
           else Credited(PlanMode, user, Some(g), used, r, amount - Usd(used), Amount(db.credits, user)))
    case Credited(mode, user, g, used, r, due, credits) =>
      (db, Done(mode, g, used,
        if fault then StoreError else FromWallet(Usd(credits - Amount(db.billed, user)), r, due)))
    case Done(_, _, _, _) => (db, pc)
  }

  function Exec(s: State, run: seq<Action>): State {
    if run == [] then s else Next(Exec(s, run[..|run| - 1]), run[|run| - 1])
  }

  /** Ledger totals by grant and by the charge that wrote the rows. */
  function ByGrant(ledger: seq<Entry>, g: nat): int {
    if ledger == [] then 0
    else
      ByGrant(ledger[..|ledger| - 1], g) +
        if ledger[|ledger| - 1].grant == g then ledger[|ledger| - 1].amount else 0
  }

  function ByCharge(ledger: seq<Entry>, t: nat): int {
    if ledger == [] then 0
    else
      ByCharge(ledger[..|ledger| - 1], t) +
        if ledger[|ledger| - 1].charge == t then ledger[|ledger| - 1].amount else 0
  }

  lemma LedgerSnoc(ledger: seq<Entry>, e: Entry, n: nat)
    ensures ByGrant(ledger + [e], n) == ByGrant(ledger, n) + if e.grant == n then e.amount else 0
    ensures ByCharge(ledger + [e], n) == ByCharge(ledger, n) + if e.charge == n then e.amount else 0
  {
    assert (ledger + [e])[..|ledger|] == ledger;
  }

  // ---------------------------------------------------------------- invariants

  /** Each grant's ledger rows add up to what it has lost. */
  ghost predicate BooksBalance(db: Db) {
    && (forall g :: 0 <= g < |db.grants| ==> ByGrant(db.ledger, g) == db.grants[g].granted - db.grants[g].remaining)
    && (forall i :: 0 <= i < |db.ledger| ==>
          db.ledger[i].amount > 0 && db.ledger[i].grant < |db.grants|
          && db.ledger[i].user == db.grants[db.ledger[i].grant].user)
    && (forall g :: g >= |db.grants| ==> ByGrant(db.ledger, g) == 0)
  }

  /** Each charge's ledger rows are exactly the credit it believes it consumed. */
  ghost predicate ChargesMatch(ledger: seq<Entry>, charges: map<nat, Pc>) {
    forall t :: ByCharge(ledger, t) == if t in charges then charges[t].Used() else 0
  }

  /** What a charge may claim: a split that adds up, wallet money only when billed payg or
      when its grant allows overage, and no plan credit for a payg charge. */
  ghost predicate Honest(grants: seq<Grant>, pc: Pc) {
    match pc
    case Starting(_, cost, ratio, _) => cost > 0.0 && ratio >= 0.0
    case Selected(_, g, amount, _) => g < |grants| && amount > 0.0
    case Drawn(_, g, amount, used, _) => g < |grants| && used >= 0 && amount - Usd(used) > 0.0
    case Credited(mode, _, g, used, r, due, _) => due > 0.0 && HonestResult(grants, mode, g, used, r.(wallet := due))
    case Done(mode, g, used, out) =>
      && (mode == Payg ==> used == 0)
      && (out.Charged? ==> HonestResult(grants, mode, g, used, out.r))
  }

  ghost predicate HonestResult(grants: seq<Grant>, mode: Mode, g: Option<nat>, used: int, r: Result) {
    && (mode == Payg ==> used == 0)
    && SplitWithin(r) && r.plan == Usd(used)
    && (mode == PlanMode && r.wallet > 0.0 ==> g.Some? && g.value < |grants| && grants[g.value].overage)
  }

  ghost predicate Inv(s: State) {
    && Sound(s.db) && BooksBalance(s.db)
    && ChargesMatch(s.db.ledger, s.charges)
    && forall t :: t in s.charges ==> Honest(s.db.grants, s.charges[t])
  }

  // -------------------------------------------------------------- preservation

  /** The deduction keeps the books, writes at most one row for its charge, and only ever
      lowers a grant's remaining credit. */
  lemma ConsumeKeepsBooks(db: Db, g: nat, user: int, amount: real, t: nat)
    requires Sound(db) && BooksBalance(db) && amount > 0.0
    ensures var (db', used) := Consume(db, g, user, amount, t);
      && Sound(db') && BooksBalance(db') && Lowered(db, db') && used >= 0
      && (forall u :: ByCharge(db'.ledger, u) == ByCharge(db.ledger, u) + if u == t then used else 0)
      && (used > 0 ==> g < |db.grants| && amount - Usd(used) > -0.0000005)
  {
    var (db', used) := Consume(db, g, user, amount, t);
    if used > 0 {
      ConsumeTakes(db.grants[g].remaining, amount);
      forall n: nat
        ensures ByGrant(db'.ledger, n) == ByGrant(db.ledger, n) + if n == g then used else 0
        ensures ByCharge(db'.ledger, n) == ByCharge(db.ledger, n) + if n == t then used else 0
      {
        LedgerSnoc(db.ledger, Entry(g, user, used, t), n);
      }
    }
  }

  /** No grant gains credit or changes its terms. */
  ghost predicate Lowered(db: Db, db': Db) {
    && |db.grants| <= |db'.grants| && db.ledger <= db'.ledger
    && forall g :: 0 <= g < |db.grants| ==>
         && db'.grants[g].remaining <= db.grants[g].remaining
         && db'.grants[g].(remaining := 0, status := Active) == db.grants[g].(remaining := 0, status := Active)
  }

  lemma DrawKeeps(db: Db, t: nat, pc: Pc, now: int)
    requires Sound(db) && BooksBalance(db) && Honest(db.grants, pc) && pc.Selected? && pc.snapshot > 0
    ensures var (db', pc') := Step(db, t, pc, now, false);
      && Sound(db') && BooksBalance(db') && Lowered(db, db') && Honest(db'.grants, pc')
      && (forall u :: ByCharge(db'.ledger, u) == ByCharge(db.ledger, u) + if u == t then pc'.Used() else 0)
  {
    ConsumeKeepsBooks(db, pc.grant, pc.user, pc.amount, t);
    var (db', used) := Consume(db, pc.grant, pc.user, pc.amount, t);
    assert Step(db, t, pc, now, false).0 == db' && Step(db, t, pc, now, false).1.Used() == used;
  }

  lemma StepKeeps(db: Db, t: nat, pc: Pc, now: int, fault: bool)
    requires Sound(db) && BooksBalance(db) && Honest(db.grants, pc)
    ensures var (db', pc') := Step(db, t, pc, now, fault);
      && Sound(db') && BooksBalance(db') && Lowered(db, db') && Honest(db'.grants, pc')
      && (forall u :: ByCharge(db'.ledger, u) == ByCharge(db.ledger, u) + if u == t then pc'.Used() - pc.Used() else 0)
  {
    if pc.Selected? && pc.snapshot > 0 && !fault {
      DrawKeeps(db, t, pc, now);
    } else {
      QuietStep(db, t, pc, now, fault);
    }
  }

  /** Every other step only reads the database. */
  lemma QuietStep(db: Db, t: nat, pc: Pc, now: int, fault: bool)
    requires Sound(db) && Honest(db.grants, pc) && (pc.Selected? ==> pc.snapshot <= 0 || fault)
    ensures var (db', pc') := Step(db, t, pc, now, fault);
      db' == db && pc'.Used() == pc.Used() && Honest(db.grants, pc')
  {
    if pc.Drawn? {
      assert SplitWithin(Result(pc.amount, Usd(pc.used), pc.amount - Usd(pc.used), None));
    }
  }

  lemma HonestStays(db: Db, db': Db, pc: Pc)
    requires Lowered(db, db') && Honest(db.grants, pc)
    ensures Honest(db'.grants, pc)
  {
    if (pc.Done? || pc.Credited?) && pc.drawnOn.Some? && pc.drawnOn.value < |db.grants| {
      var g := pc.drawnOn.value;
      assert db'.grants[g].overage == db.grants[g].(remaining := 0, status := Active).overage;
    }
  }

  lemma GrantKeepsInv(s: State, user: int, plan: Plan, startsAt: int)
    requires Inv(s) && plan.credit >= 0.0 && plan.ratio >= 0.0
    ensures var db' := s.db.(grants := s.db.grants + [NewGrant(user, plan, startsAt)]);
      Inv(s.(db := db')) && Lowered(s.db, db')
  {
    var db' := s.db.(grants := s.db.grants + [NewGrant(user, plan, startsAt)]);
    forall u | u in s.charges
      ensures Honest(db'.grants, s.charges[u])
    {
      HonestStays(s.db, db', s.charges[u]);
    }
  }

  /** Every step keeps the invariants and never raises a grant's remaining credit. */
  lemma NextKeepsInv(s: State, a: Action)
    requires Inv(s)
    ensures Inv(Next(s, a)) && Lowered(s.db, Next(s, a).db)
  {
    var s' := Next(s, a);
    match a
    case Advance(t, now, fault) =>
      if t in s.charges {
        StepKeeps(s.db, t, s.charges[t], now, fault);
        forall u | u in s.charges
          ensures Honest(s'.db.grants, s.charges[u])
        {
          HonestStays(s.db, s'.db, s.charges[u]);
        }
      }
    case GrantPlan(user, plan, startsAt) =>
      if plan.credit >= 0.0 && plan.ratio >= 0.0 {
        GrantKeepsInv(s, user, plan, startsAt);
      }
    case TopUp(_, _) =>
    case StoreRow(_, _) =>
    case Begin(_, _, _, _, _) =>
  }

  /** The ledger is conserved in every run, whatever charges interleave and however they
      end, including those refused after consuming. */
  lemma {:induction false} EveryRun(run: seq<Action>)
    ensures Inv(Exec(INIT, run))
  {
    if run != [] {
      EveryRun(run[..|run| - 1]);
      NextKeepsInv(Exec(INIT, run[..|run| - 1]), run[|run| - 1]);
    }
  }

  /** What happens around the charges: a plan is granted, a top-up raises the wallet, a stored
      row lowers it. */
  lemma RowsArrive(s: State, user: int, plan: Plan, startsAt: int, micros: int)
    ensures plan.credit >= 0.0 && plan.ratio >= 0.0 ==>
      Next(s, GrantPlan(user, plan, startsAt)).db.grants == s.db.grants + [NewGrant(user, plan, startsAt)]
    ensures Next(s, TopUp(user, micros)).db.WalletBalance(user) == s.db.WalletBalance(user) + Usd(micros)
    ensures Next(s, StoreRow(user, micros)).db.WalletBalance(user) == s.db.WalletBalance(user) - Usd(micros)
  {
  }

  /** A step keeps every charge's mode. */
  lemma ModeKept(s: State, a: Action, t: nat)
    requires t in s.charges
    ensures t in Next(s, a).charges && Next(s, a).charges[t].ModeOf() == s.charges[t].ModeOf()
  {
  }

  ghost predicate OnlyPayg(run: seq<Action>) {
    forall i :: 0 <= i < |run| && run[i].Begin? ==> run[i].mode == Payg
  }

  ghost predicate Untouched(s: State) {
    && s.db.ledger == []
    && (forall t :: t in s.charges ==> s.charges[t].ModeOf() == Payg)
    && (forall g :: 0 <= g < |s.db.grants| ==>
          s.db.grants[g].remaining == s.db.grants[g].granted && s.db.grants[g].status == Active)
  }

  /** However a run goes on, a payg charge stays one and never appears in the ledger. */
  lemma {:induction false} PaygNeverDraws(run: seq<Action>, more: seq<Action>, t: nat)
    requires t in Exec(INIT, run).charges && Exec(INIT, run).charges[t].ModeOf() == Payg
    ensures var s := Exec(INIT, run + more);
      t in s.charges && s.charges[t].ModeOf() == Payg && ByCharge(s.db.ledger, t) == 0
  {
    EveryRun(run + more);
    if more == [] {
      assert run + more == run;
    } else {
      var front := more[..|more| - 1];
      assert (run + more)[..|run + more| - 1] == run + front;
      PaygNeverDraws(run, front, t);
      ModeKept(Exec(INIT, run + front), more[|more| - 1], t);
    }
  }

  /** A run of payg charges leaves every grant and the ledger as new. */
  lemma {:induction false} PaygRunsLeaveGrants(run: seq<Action>)
    requires OnlyPayg(run)
    ensures Untouched(Exec(INIT, run))
  {
    if run != [] {
      var a := run[|run| - 1];
      assert OnlyPayg(run[..|run| - 1]);
      PaygRunsLeaveGrants(run[..|run| - 1]);
      PaygStep(Exec(INIT, run[..|run| - 1]), a);
    }
  }

  lemma PaygStep(s: State, a: Action)
    requires Untouched(s) && (a.Begin? ==> a.mode == Payg)
    ensures Untouched(Next(s, a))
  {
    if a.Advance? && a.t in s.charges {
      assert s.charges[a.t].ModeOf() == Payg;
    }
  }

  /** A refused plan charge keeps the credit it consumed: the ledger shows it, the result
      does not. */
  lemma RefusedChargeIsStillPaid(run: seq<Action>, t: nat)
    requires t in Exec(INIT, run).charges && Exec(INIT, run).charges[t].Done?
    ensures var s := Exec(INIT, run);
      && ByCharge(s.db.ledger, t) == s.charges[t].used
      && (s.charges[t].out.Charged? ==> s.charges[t].out.r.plan == Usd(ByCharge(s.db.ledger, t)))
  {
    EveryRun(run);
  }

  /** Faults of a charge's statements; a wallet has two of them. */
  datatype StepFaults = StepFaults(grant: bool, consume: bool, credits: bool, billed: bool) {
    function AsFaults(): Faults { Faults(grant, consume, credits || billed) }
  }

  /** Four steps of one charge, each with the fault of the statement it makes. */
  function Alone(db: Db, t: nat, pc: Pc, now: int, f: StepFaults): (Db, Pc) {
    var (d1, pc1) := Step(db, t, pc, now, if pc.ModeOf() == Payg then f.credits else f.grant);
    var (d2, pc2) := Step(d1, t, pc1, now, if pc.ModeOf() == Payg then f.billed else f.consume);
    var (d3, pc3) := Step(d2, t, pc2, now, f.credits);
    Step(d3, t, pc3, now, f.billed)
  }

  lemma PaygAlone(db: Db, t: nat, user: int, cost: real, ratio: real, now: int, f: StepFaults)
    requires cost > 0.0
    ensures Alone(db, t, Starting(user, cost, ratio, Payg), now, f)
         == (db, Done(Payg, None, 0, ChargeOf(db, user, cost, ratio, Payg, now, t, f.AsFaults()).1))
    ensures ChargeOf(db, user, cost, ratio, Payg, now, t, f.AsFaults()).0 == db
  {
  }

  /** From the selected row on: the deduction and the overage. */
  lemma DrawAlone(db: Db, t: nat, user: int, g: nat, amount: real, now: int, f: StepFaults)
    requires g < |db.grants| && amount > 0.0
    ensures var (d1, pc1) := Step(db, t, Selected(user, g, amount, db.grants[g].remaining), now, f.consume);
      var (d2, pc2) := Step(d1, t, pc1, now, f.credits);
      var (d3, pc3) := Step(d2, t, pc2, now, f.billed);
      pc3.Done? && (d3, pc3.out) == Draw(db, user, g, amount, t, f.AsFaults())
  {
  }

  lemma PlanAlone(db: Db, t: nat, user: int, cost: real, ratio: real, now: int, f: StepFaults)
    requires cost > 0.0
    ensures var (db', pc') := Alone(db, t, Starting(user, cost, ratio, PlanMode), now, f);
      pc'.Done? && (db', pc'.out) == ChargeOf(db, user, cost, ratio, PlanMode, now, t, f.AsFaults())
  {
    if !f.grant && ActiveGrant(db, user, now).Some? {
      var g := ActiveGrant(db, user, now).value;
      if Price(cost, db.grants[g].ratio) > 0.0 {
        DrawAlone(db, t, user, g, Price(cost, db.grants[g].ratio), now, f);
      }
    }
  }

  /** Undisturbed, the steps of one charge are Charge itself, with the same database, the
      same result and the same failures, whatever statements fail. */
  lemma AloneIsCharge(s: State, t: nat, user: int, cost: real, ratio: real, mode: Mode, now: int, f: StepFaults)
    requires t !in s.charges && cost > 0.0 && ratio >= 0.0
    ensures var s1 := Next(Next(s, Begin(t, user, cost, ratio, mode)),
                           Advance(t, now, if mode == Payg then f.credits else f.grant));
      var s2 := Next(s1, Advance(t, now, if mode == Payg then f.billed else f.consume));
      var s4 := Next(Next(s2, Advance(t, now, f.credits)), Advance(t, now, f.billed));
      && t in s4.charges && s4.charges[t].Done?
      && (s4.db, s4.charges[t].out) == ChargeOf(s.db, user, cost, ratio, mode, now, t, f.AsFaults())
  {
    var pc := Starting(user, cost, ratio, mode);
    assert Next(s, Begin(t, user, cost, ratio, mode)) == s.(charges := s.charges[t := pc]);
    if mode == Payg {
      FourSteps(s, t, pc, now, f.credits, f.billed, f.credits, f.billed);
      PaygAlone(s.db, t, user, cost, ratio, now, f);
    } else {
      FourSteps(s, t, pc, now, f.grant, f.consume, f.credits, f.billed);
      PlanAlone(s.db, t, user, cost, ratio, now, f);
    }
  }

  lemma OneStep(s: State, t: nat, pc: Pc, now: int, fault: bool)
    requires t in s.charges && s.charges[t] == pc
    ensures var s' := Next(s, Advance(t, now, fault));
      t in s'.charges && (s'.db, s'.charges[t]) == Step(s.db, t, pc, now, fault)
  {
  }

  /** Advancing one charge four times, seen from outside. */
  lemma FourSteps(s: State, t: nat, pc: Pc, now: int, f1: bool, f2: bool, f3: bool, f4: bool)
    ensures var (d1, pc1) := Step(s.db, t, pc, now, f1);
      var (d2, pc2) := Step(d1, t, pc1, now, f2);
      var (d3, pc3) := Step(d2, t, pc2, now, f3);
      var (d4, pc4) := Step(d3, t, pc3, now, f4);
      var s2 := Next(Next(s.(charges := s.charges[t := pc]), Advance(t, now, f1)), Advance(t, now, f2));
      var s4 := Next(Next(s2, Advance(t, now, f3)), Advance(t, now, f4));
      s4.db == d4 && t in s4.charges && s4.charges[t] == pc4
  {
    var s0 := s.(charges := s.charges[t := pc]);
    OneStep(s0, t, pc, now, f1);
    var s1 := Next(s0, Advance(t, now, f1));
    OneStep(s1, t, s1.charges[t], now, f2);
    var s2 := Next(s1, Advance(t, now, f2));
    OneStep(s2, t, s2.charges[t], now, f3);
    var s3 := Next(s2, Advance(t, now, f3));
    OneStep(s3, t, s3.charges[t], now, f4);
  }
}
