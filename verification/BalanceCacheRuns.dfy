/** The caches under concurrency: lookups, source reads, seeds, refreshes, folds and the
    statements that change the database interleave freely, one locked region or one
    database statement per step. A balance takes two statements, credits and billed rows,
    and a plan balance reads the grant row before them, so other steps may come between. A
    charge to the wallet, like a key's spend, is folded first and reaches the database later,
    when its request row is stored; a top-up and a deduction of plan credit are in the
    database before they are folded. */
module BalanceCacheRuns {
  import opened Common
  import opened Billing
  import opened BalanceCache

  // ---------------------------------------------------------------- the database

  /** A number that one statement of the source computes. */
  datatype Cell = Credits(user: int) | Billed(user: int) | PlanCredit(user: int) | Spent(name: string)

  /** A request row on its way to the database, with what it will change there. */
  datatype Row = Row(cell: Cell, amount: real)

  /** What the source computes from; `overage` holds the users whose active grant may spend
      the wallet. */
  datatype Accounts = Accounts(cells: map<Cell, real>, overage: set<int>, rows: seq<Row>)

  function At(cells: map<Cell, real>, c: Cell): real { if c in cells then cells[c] else 0.0 }

  /** What the rows not yet stored will add to a cell. */
  function Unstored(rows: seq<Row>, c: Cell): real {
    if rows == [] then 0.0
    else Unstored(rows[..|rows| - 1], c) + if rows[|rows| - 1].cell == c then rows[|rows| - 1].amount else 0.0
  }

  /** An amount as its column keeps it. */
  function Stored(usd: real): real
    requires usd >= 0.0
  {
    Usd(Round6(usd))
  }

  /** A cell's true value: every row counts, stored or not. */
  function TrueCell(a: Accounts, c: Cell): real { At(a.cells, c) + Unstored(a.rows, c) }

  function TrueWallet(a: Accounts, user: int): real { TrueCell(a, Credits(user)) - TrueCell(a, Billed(user)) }

  /** The true running total of a key; the plan balance counts the wallet under overage. */
  function Truth(a: Accounts, k: Key): real {
    match k
    case Balance(u, Payg) => TrueWallet(a, u)
    case Balance(u, PlanMode) => TrueCell(a, PlanCredit(u)) + if u in a.overage then TrueWallet(a, u) else 0.0
    case Spend(name) => TrueCell(a, Spent(name))
  }

  // ------------------------------------------------------------------ operations

  /** The cache's own operations, and what happens to the database: a row is stored, a
      statement changes a cell (a top-up, a deduction, another instance's rows, spend ageing
      out), a user's active grant becomes another. */
  datatype Op =
    | ChargeWallet(user: int, usd: real)
    | ChargePlan(user: int, usd: real)
    | Credit(user: int, usd: real)
    | AddSpend(name: string, usd: real)
    | RowStored(i: nat)
    | Post(cell: Cell, amount: real)
    | NewGrant(user: int, credit: real, overage: bool)

  /** The operation on the cached entries. */
  function Folding(es: Entries, op: Op): Entries {
    match op
    case ChargeWallet(u, usd) => if usd <= 0.0 then es else Folded(es, BothModes(u), -usd)
    case ChargePlan(u, usd) => if usd <= 0.0 then es else Folded(es, {Balance(u, PlanMode)}, -usd)
    case Credit(u, usd) => if usd == 0.0 then es else Folded(es, BothModes(u), usd)
    case AddSpend(name, usd) => if usd <= 0.0 then es else Folded(es, {Spend(name)}, usd)
    case _ => es
  }

  /** The operation on the database and on the rows under way to it. */
  function Posting(a: Accounts, op: Op): Accounts {
    match op
    case ChargeWallet(u, usd) => if usd <= 0.0 then a else a.(rows := a.rows + [Row(Billed(u), Stored(usd))])
    case AddSpend(name, usd) => if usd <= 0.0 then a else a.(rows := a.rows + [Row(Spent(name), Stored(usd))])
    case RowStored(i) =>
      if i >= |a.rows| then a
      else a.(cells := a.cells[a.rows[i].cell := At(a.cells, a.rows[i].cell) + a.rows[i].amount],
              rows := a.rows[..i] + a.rows[i + 1..])
    case Post(c, amount) => a.(cells := a.cells[c := At(a.cells, c) + amount])
    case NewGrant(u, credit, overage) =>
      a.(cells := a.cells[PlanCredit(u) := credit], overage := if overage then a.overage + {u} else a.overage - {u})
    case _ => a
  }

  /** The database after a history of operations. */
  function After(first: Accounts, ops: seq<Op>): Accounts {
    if ops == [] then first else Posting(After(first, ops[..|ops| - 1]), ops[|ops| - 1])
  }

  // What each kind of operation adds up to, as the documentation speaks of it.

  function Positive(x: real): real { if x > 0.0 then x else 0.0 }

  function WalletCharges(ops: seq<Op>, user: int): real {
    if ops == [] then 0.0
    else
      var op := ops[|ops| - 1];
      WalletCharges(ops[..|ops| - 1], user) + if op.ChargeWallet? && op.user == user then Positive(op.usd) else 0.0
  }

  function PlanCharges(ops: seq<Op>, user: int): real {
    if ops == [] then 0.0
    else
      var op := ops[|ops| - 1];
      PlanCharges(ops[..|ops| - 1], user) + if op.ChargePlan? && op.user == user then Positive(op.usd) else 0.0
  }

  function CreditFolds(ops: seq<Op>, user: int): real {
    if ops == [] then 0.0
    else
      var op := ops[|ops| - 1];
      CreditFolds(ops[..|ops| - 1], user) + if op.Credit? && op.user == user then op.usd else 0.0
  }

  function Spending(ops: seq<Op>, name: string): real {
    if ops == [] then 0.0
    else
      var op := ops[|ops| - 1];
      Spending(ops[..|ops| - 1], name) + if op.AddSpend? && op.name == name then Positive(op.usd) else 0.0
  }

  /** What a key's cached value has to show for a history: credits minus wallet charges, in
      the plan mode minus plan charges too, or the spend. */
  function Folds(ops: seq<Op>, k: Key): real {
    match k
    case Balance(u, Payg) => CreditFolds(ops, u) - WalletCharges(ops, u)
    case Balance(u, PlanMode) => CreditFolds(ops, u) - WalletCharges(ops, u) - PlanCharges(ops, u)
    case Spend(name) => Spending(ops, name)
  }

  // ----------------------------------------------------------------- source reads

  /** What one statement answered, after the first `at` operations; the grant row also tells
      whether the grant allows overage. */
  datatype Sample = Sample(cell: Cell, usd: real, overage: bool, at: nat)

  /** The next statement of a read, given the answers so far: the grant row first for a plan
      balance, and the wallet only if that grant may spend it. */
  function NextCell(k: Key, seen: seq<Sample>): Option<Cell> {
    match k
    case Balance(u, Payg) =>
      if |seen| == 0 then Some(Credits(u)) else if |seen| == 1 then Some(Billed(u)) else None
    case Balance(u, PlanMode) =>
      if |seen| == 0 then Some(PlanCredit(u))
      else if !seen[0].overage then None
      else if |seen| == 1 then Some(Credits(u))
      else if |seen| == 2 then Some(Billed(u))
      else None
    case Spend(name) => if |seen| == 0 then Some(Spent(name)) else None
  }

  /** Billed rows are subtracted, everything else added. */
  function Signed(c: Cell, x: real): real { if c.Billed? then -x else x }

  /** The value put together from the answers. */
  function Value(seen: seq<Sample>): real {
    if seen == [] then 0.0
    else Value(seen[..|seen| - 1]) + Signed(seen[|seen| - 1].cell, seen[|seen| - 1].usd)
  }

  function Ask(a: Accounts, k: Key, c: Cell, at: nat): Sample {
    Sample(c, At(a.cells, c), k.Balance? && k.user in a.overage, at)
  }

  /** A read is asking, is through, or has failed. */
  datatype Stage = Asking(seen: seq<Sample>) | Through(seen: seq<Sample>) | Broken

  /** Goroutines that talk to the source: a cold lookup or a background refresh. */
  datatype Reader = Reader(key: Key, refresh: bool, stage: Stage)

  function Asked(k: Key, seen: seq<Sample>): Stage { if NextCell(k, seen).Some? then Asking(seen) else Through(seen) }

  // ------------------------------------------------------------------------ runs

  /** Where a key's cached value came from: the answers, and when it was assigned. */
  datatype Mark = Mark(seen: seq<Sample>, assignedAt: nat)

  datatype State = State(entries: Entries, readers: map<nat, Reader>, ops: seq<Op>, marks: map<Key, Mark>)

  datatype Action =
    | Lookup(t: nat, key: Key, now: int)
    | Statement(t: nat, ok: bool)
    | Finish(t: nat, now: int)
    | Do(op: Op)

  const INIT := State(map[], map[], [], map[])

  function Done(s: State, op: Op): State {
    s.(entries := Folding(s.entries, op), ops := s.ops + [op])
  }

  function Looked(s: State, ttl: int, t: nat, k: Key, now: int): State {
    if k !in s.entries then s.(readers := s.readers[t := Reader(k, false, Asking([]))])
    else if StartsRefresh(s.entries, k, now, ttl)
    then s.(entries := AfterLookup(s.entries, k, now, ttl), readers := s.readers[t := Reader(k, true, Asking([]))])
    else s
  }

  /** The reader after its next statement, which answers from this moment's database or
      fails. */
  function AfterStatement(first: Accounts, r: Reader, ops: seq<Op>, ok: bool): Reader {
    if !r.stage.Asking? || NextCell(r.key, r.stage.seen).None? then r
    else if !ok then r.(stage := Broken)
    else
      var sample := Ask(After(first, ops), r.key, NextCell(r.key, r.stage.seen).value, |ops|);
      r.(stage := Asked(r.key, r.stage.seen + [sample]))
  }

  function Finished(s: State, t: nat, now: int): State
    requires t in s.readers
  {
    var gone := s.(readers := s.readers - {t});
    var Reader(k, refresh, stage) := s.readers[t];
    match stage
    case Asking(_) => s
    case Broken => if refresh then gone.(entries := AfterRefresh(s.entries, k, None, now)) else gone
    case Through(seen) =>
      if !refresh && k in s.entries then gone
      else gone.(entries := if refresh then AfterRefresh(s.entries, k, Some(Value(seen)), now)
                            else AfterSeed(s.entries, k, Value(seen), now),
                 marks := s.marks[k := Mark(seen, |s.ops|)])
  }

  /** `first` is the database before the history, with whatever rows are under way. */
  function Next(first: Accounts, ttl: int, s: State, a: Action): State {
    match a
    case Lookup(t, k, now) => if t in s.readers then s else Looked(s, ttl, t, k, now)
    case Statement(t, ok) =>
      if t in s.readers then s.(readers := s.readers[t := AfterStatement(first, s.readers[t], s.ops, ok)]) else s
    case Finish(t, now) => if t in s.readers then Finished(s, t, now) else s
    case Do(op) => Done(s, op)
  }

  function Exec(first: Accounts, ttl: int, run: seq<Action>): State {
    if run == [] then INIT else Next(first, ttl, Exec(first, ttl, run[..|run| - 1]), run[|run| - 1])
  }

  // ---------------------------------------------------------------- invariants

  /** An answer is what its cell held at its own instant. */
  ghost predicate Answered(first: Accounts, ops: seq<Op>, k: Key, x: Sample) {
    x.at <= |ops| && x == Ask(After(first, ops[..x.at]), k, x.cell, x.at)
  }

  /** The answers of a read so far: the right statements in order, each at its own instant,
      none before the one before. */
  ghost predicate ReadSo(first: Accounts, ops: seq<Op>, k: Key, seen: seq<Sample>) {
    seen != [] ==>
      var front, x := seen[..|seen| - 1], seen[|seen| - 1];
      && ReadSo(first, ops, k, front)
      && NextCell(k, front) == Some(x.cell) && Answered(first, ops, k, x)
      && (front != [] ==> front[|front| - 1].at <= x.at)
  }

  ghost predicate InHand(first: Accounts, r: Reader, ops: seq<Op>) {
    !r.stage.Broken? ==>
      && ReadSo(first, ops, r.key, r.stage.seen)
      && (r.stage.Through? <==> NextCell(r.key, r.stage.seen).None?)
  }

  ghost predicate AllInHand(first: Accounts, rs: map<nat, Reader>, ops: seq<Op>) {
    forall t :: t in rs ==> InHand(first, rs[t], ops)
  }

  /** A cached value is the one assigned last plus what was folded since. */
  ghost predicate Explained(first: Accounts, e: CacheEntry, ops: seq<Op>, m: Mark, k: Key) {
    && m.assignedAt <= |ops|
    && ReadSo(first, ops[..m.assignedAt], k, m.seen) && NextCell(k, m.seen).None?
    && e.usd == Value(m.seen) + Folds(ops[m.assignedAt..], k)
  }

  ghost predicate AllExplained(first: Accounts, es: Entries, ops: seq<Op>, marks: map<Key, Mark>) {
    && es.Keys == marks.Keys
    && forall k :: k in es ==> Explained(first, es[k], ops, marks[k], k)
  }

  ghost predicate RefreshOf(rs: map<nat, Reader>, t: nat, k: Key) {
    t in rs && rs[t].refresh && rs[t].key == k
  }

  /** A refresh is under way for a key exactly when its entry says so, and then only one. */
  ghost predicate SingleRefresh(es: Entries, rs: map<nat, Reader>) {
    && (forall t, k :: RefreshOf(rs, t, k) ==> k in es && es[k].refreshing)
    && (forall t, u, k :: RefreshOf(rs, t, k) && RefreshOf(rs, u, k) ==> t == u)
    && (forall k :: k in es && es[k].refreshing ==> exists t :: RefreshOf(rs, t, k))
  }

  ghost predicate Inv(first: Accounts, s: State) {
    && AllExplained(first, s.entries, s.ops, s.marks)
    && AllInHand(first, s.readers, s.ops)
    && SingleRefresh(s.entries, s.readers)
  }

  // ---------------------------------------------------------------- one refresh a key

  /** A reader that moves on without changing its key or its kind. */
  lemma MoveOn(es: Entries, rs: map<nat, Reader>, t: nat, r: Reader)
    requires SingleRefresh(es, rs) && t in rs && r.key == rs[t].key && r.refresh == rs[t].refresh
    ensures SingleRefresh(es, rs[t := r])
  {
    var rs' := rs[t := r];
    forall u, k ensures RefreshOf(rs', u, k) == RefreshOf(rs, u, k) {}
  }

  lemma StartCold(es: Entries, rs: map<nat, Reader>, t: nat, k: Key)
    requires SingleRefresh(es, rs) && t !in rs
    ensures SingleRefresh(es, rs[t := Reader(k, false, Asking([]))])
  {
    var rs' := rs[t := Reader(k, false, Asking([]))];
    forall u, j ensures RefreshOf(rs', u, j) == RefreshOf(rs, u, j) {}
  }

  lemma EndCold(es: Entries, rs: map<nat, Reader>, t: nat)
    requires SingleRefresh(es, rs) && t in rs && !rs[t].refresh
    ensures SingleRefresh(es, rs - {t})
  {
    forall u, j ensures RefreshOf(rs - {t}, u, j) == RefreshOf(rs, u, j) {}
  }

  lemma StartRefresh(es: Entries, rs: map<nat, Reader>, t: nat, k: Key)
    requires SingleRefresh(es, rs) && t !in rs && k in es && !es[k].refreshing
    ensures SingleRefresh(es[k := es[k].(refreshing := true)], rs[t := Reader(k, true, Asking([]))])
  {
    var rs' := rs[t := Reader(k, true, Asking([]))];
    assert RefreshOf(rs', t, k);
    forall u, j | j != k ensures RefreshOf(rs', u, j) == RefreshOf(rs, u, j) {}
    forall u | RefreshOf(rs', u, k) ensures u == t {
      assert !RefreshOf(rs, u, k);
    }
  }

  lemma EndRefresh(es: Entries, rs: map<nat, Reader>, t: nat, e: CacheEntry)
    requires SingleRefresh(es, rs) && t in rs && rs[t].refresh && !e.refreshing
    ensures SingleRefresh(es[rs[t].key := e], rs - {t})
  {
    var k := rs[t].key;
    assert RefreshOf(rs, t, k);
    forall u, j | j != k ensures RefreshOf(rs - {t}, u, j) == RefreshOf(rs, u, j) {}
    forall u ensures !RefreshOf(rs - {t}, u, k) {
      assert RefreshOf(rs, u, k) ==> u == t;
    }
  }

  /** Entries may come in or change their values; the flags decide. */
  lemma SameFlags(es: Entries, es': Entries, rs: map<nat, Reader>)
    requires SingleRefresh(es, rs) && es.Keys <= es'.Keys
    requires forall k :: k in es' ==> es'[k].refreshing == (k in es && es[k].refreshing)
    ensures SingleRefresh(es', rs)
  {
  }

  // ---------------------------------------------------------------- preservation

  lemma FoldsSnoc(ops: seq<Op>, op: Op, k: Key)
    ensures Folds(ops + [op], k) == Folds(ops, k) + Effect(op, k)
  {
    assert (ops + [op])[..|ops|] == ops;
  }

  /** One operation's share of Folds. */
  function Effect(op: Op, k: Key): real {
    match op
    case ChargeWallet(u, usd) => if k.Balance? && k.user == u then -Positive(usd) else 0.0
    case ChargePlan(u, usd) => if k == Balance(u, PlanMode) then -Positive(usd) else 0.0
    case Credit(u, usd) => if k.Balance? && k.user == u then usd else 0.0
    case AddSpend(name, usd) => if k == Spend(name) then Positive(usd) else 0.0
    case _ => 0.0
  }

  /** The cached entries move by that share, and by nothing else. */
  lemma FoldingIsEffect(es: Entries, op: Op)
    ensures Folding(es, op).Keys == es.Keys
    ensures forall k :: k in es ==> Folding(es, op)[k] == es[k].(usd := es[k].usd + Effect(op, k))
  {
    forall k | k in es ensures Folding(es, op)[k] == es[k].(usd := es[k].usd + Effect(op, k)) {
      FoldingAt(es, op, k);
    }
  }

  lemma FoldingAt(es: Entries, op: Op, k: Key)
    requires k in es
    ensures k in Folding(es, op) && Folding(es, op)[k] == es[k].(usd := es[k].usd + Effect(op, k))
  {
    assert es[k].(usd := es[k].usd + 0.0) == es[k];
    match op
    case ChargeWallet(u, usd) => InBothModes(k, u);
    case Credit(u, usd) => InBothModes(k, u);
    case _ =>
  }

  lemma InBothModes(k: Key, user: int)
    ensures k in BothModes(user) <==> k.Balance? && k.user == user
  {
    if k.Balance? {
      assert k == Balance(k.user, k.mode);
      if k.mode == Payg {
      } else {
        assert k.mode == PlanMode;
      }
    }
  }

  /** Later operations leave an earlier read what it was. */
  lemma {:induction false} ReadStays(first: Accounts, ops: seq<Op>, more: seq<Op>, k: Key, seen: seq<Sample>)
    requires ReadSo(first, ops, k, seen)
    ensures ReadSo(first, ops + more, k, seen)
  {
    if seen != [] {
      var x := seen[|seen| - 1];
      ReadStays(first, ops, more, k, seen[..|seen| - 1]);
      assert (ops + more)[..x.at] == ops[..x.at];
    }
  }

  lemma ExplainedSnoc(first: Accounts, e: CacheEntry, ops: seq<Op>, m: Mark, k: Key, op: Op)
    requires Explained(first, e, ops, m, k)
    ensures Explained(first, e.(usd := e.usd + Effect(op, k)), ops + [op], m, k)
  {
    assert (ops + [op])[..m.assignedAt] == ops[..m.assignedAt];
    assert (ops + [op])[m.assignedAt..] == ops[m.assignedAt..] + [op];
    FoldsSnoc(ops[m.assignedAt..], op, k);
  }

  lemma OpKeepsExplained(first: Accounts, es: Entries, ops: seq<Op>, marks: map<Key, Mark>, op: Op)
    requires AllExplained(first, es, ops, marks)
    ensures AllExplained(first, Folding(es, op), ops + [op], marks)
  {
    FoldingIsEffect(es, op);
    forall k | k in es
      ensures Explained(first, Folding(es, op)[k], ops + [op], marks[k], k)
    {
      ExplainedSnoc(first, es[k], ops, marks[k], k, op);
    }
  }

  lemma OpKeepsInHand(first: Accounts, rs: map<nat, Reader>, ops: seq<Op>, op: Op)
    requires AllInHand(first, rs, ops)
    ensures AllInHand(first, rs, ops + [op])
  {
    forall t | t in rs
      ensures InHand(first, rs[t], ops + [op])
    {
      if !rs[t].stage.Broken? {
        ReadStays(first, ops, [op], rs[t].key, rs[t].stage.seen);
      }
    }
  }

  lemma OpKeepsInv(first: Accounts, s: State, op: Op)
    requires Inv(first, s)
    ensures Inv(first, Done(s, op))
  {
    OpKeepsExplained(first, s.entries, s.ops, s.marks, op);
    OpKeepsInHand(first, s.readers, s.ops, op);
    FoldingIsEffect(s.entries, op);
    SameFlags(s.entries, Folding(s.entries, op), s.readers);
  }

  lemma AnsweredNow(first: Accounts, ops: seq<Op>, k: Key, c: Cell)
    ensures Answered(first, ops, k, Ask(After(first, ops), k, c, |ops|))
  {
    assert ops[..|ops|] == ops;
  }

  /** One more answer, of this moment. */
  lemma OneMoreAnswer(first: Accounts, ops: seq<Op>, k: Key, seen: seq<Sample>, x: Sample)
    requires ReadSo(first, ops, k, seen) && NextCell(k, seen) == Some(x.cell)
    requires Answered(first, ops, k, x) && x.at == |ops|
    ensures ReadSo(first, ops, k, seen + [x])
  {
    assert (seen + [x])[..|seen|] == seen;
  }

  lemma StatementKeepsInHand(first: Accounts, r: Reader, ops: seq<Op>, ok: bool)
    requires InHand(first, r, ops)
    ensures InHand(first, AfterStatement(first, r, ops, ok), ops)
  {
    if r.stage.Asking? {
      var c := NextCell(r.key, r.stage.seen).value;
      AnsweredNow(first, ops, r.key, c);
      OneMoreAnswer(first, ops, r.key, r.stage.seen, Ask(After(first, ops), r.key, c, |ops|));
    }
  }

  lemma StatementKeepsInv(first: Accounts, s: State, t: nat, ok: bool)
    requires Inv(first, s) && t in s.readers
    ensures Inv(first, s.(readers := s.readers[t := AfterStatement(first, s.readers[t], s.ops, ok)]))
  {
    StatementKeepsInHand(first, s.readers[t], s.ops, ok);
    MoveOn(s.entries, s.readers, t, AfterStatement(first, s.readers[t], s.ops, ok));
  }

  lemma StartKeepsInHand(first: Accounts, rs: map<nat, Reader>, ops: seq<Op>, t: nat, k: Key, refresh: bool)
    requires AllInHand(first, rs, ops)
    ensures AllInHand(first, rs[t := Reader(k, refresh, Asking([]))], ops)
  {
    assert NextCell(k, []).Some?;
    assert InHand(first, Reader(k, refresh, Asking([])), ops);
  }

  lemma FlagKeepsExplained(first: Accounts, es: Entries, ops: seq<Op>, marks: map<Key, Mark>, k: Key)
    requires AllExplained(first, es, ops, marks) && k in es
    ensures AllExplained(first, es[k := es[k].(refreshing := true)], ops, marks)
  {
    assert Explained(first, es[k].(refreshing := true), ops, marks[k], k);
  }

  lemma LookupKeepsInv(first: Accounts, ttl: int, s: State, t: nat, k: Key, now: int)
    requires Inv(first, s) && t !in s.readers
    ensures Inv(first, Looked(s, ttl, t, k, now))
  {
    if k !in s.entries {
      StartCold(s.entries, s.readers, t, k);
      StartKeepsInHand(first, s.readers, s.ops, t, k, false);
    } else if StartsRefresh(s.entries, k, now, ttl) {
      StartRefresh(s.entries, s.readers, t, k);
      StartKeepsInHand(first, s.readers, s.ops, t, k, true);
      FlagKeepsExplained(first, s.entries, s.ops, s.marks, k);
    }
  }

  /** Assigning a value that was read from the source starts its account afresh. */
  lemma AssignKeepsExplained(first: Accounts, es: Entries, ops: seq<Op>, marks: map<Key, Mark>, k: Key,
                             seen: seq<Sample>, now: int)
    requires AllExplained(first, es, ops, marks) && ReadSo(first, ops, k, seen) && NextCell(k, seen).None?
    ensures AllExplained(first, es[k := CacheEntry(Value(seen), now, false)], ops, marks[k := Mark(seen, |ops|)])
  {
    assert ops[..|ops|] == ops && ops[|ops|..] == [];
  }

  lemma FinishKeepsInv(first: Accounts, s: State, t: nat, now: int)
    requires Inv(first, s) && t in s.readers
    ensures Inv(first, Finished(s, t, now))
  {
    var es, rs, r := s.entries, s.readers, s.readers[t];
    assert InHand(first, r, s.ops);
    if r.refresh {
      assert RefreshOf(rs, t, r.key);
    }
    match r.stage
    case Asking(_) =>
    case Broken =>
      if r.refresh {
        EndRefresh(es, rs, t, es[r.key].(refreshing := false));
      } else {
        EndCold(es, rs, t);
      }
    case Through(seen) => AssignKeepsInv(first, s, t, now);
  }

  lemma AssignKeepsInv(first: Accounts, s: State, t: nat, now: int)
    requires Inv(first, s) && t in s.readers && s.readers[t].stage.Through?
    ensures Inv(first, Finished(s, t, now))
  {
    var es, rs, r := s.entries, s.readers, s.readers[t];
    var e := CacheEntry(Value(r.stage.seen), now, false);
    assert InHand(first, r, s.ops);
    AssignKeepsExplained(first, es, s.ops, s.marks, r.key, r.stage.seen, now);
    if r.refresh {
      assert RefreshOf(rs, t, r.key);
      EndRefresh(es, rs, t, e);
    } else {
      EndCold(es, rs, t);
      if r.key !in es {
        SameFlags(es, es[r.key := e], rs - {t});
      }
    }
  }

  lemma NextKeepsInv(first: Accounts, ttl: int, s: State, a: Action)
    requires Inv(first, s)
    ensures Inv(first, Next(first, ttl, s, a))
  {
    match a
    case Lookup(t, k, now) => if t !in s.readers { LookupKeepsInv(first, ttl, s, t, k, now); }
    case Statement(t, ok) => if t in s.readers { StatementKeepsInv(first, s, t, ok); }
    case Finish(t, now) => if t in s.readers { FinishKeepsInv(first, s, t, now); }
    case Do(op) => OpKeepsInv(first, s, op);
  }

  lemma {:induction false} EveryRun(first: Accounts, ttl: int, run: seq<Action>)
    ensures Inv(first, Exec(first, ttl, run))
  {
    if run != [] {
      EveryRun(first, ttl, run[..|run| - 1]);
      NextKeepsInv(first, ttl, Exec(first, ttl, run[..|run| - 1]), run[|run| - 1]);
    }
  }

  // -------------------------------------------------------------------- the totals

  /** In every run each cached value is put together from answers that their cells gave at
      their own instants before the assignment; a balance then has credits minus wallet
      charges since that assignment, in the plan mode minus plan charges too, and a spend the
      spend since. */
  lemma CachedValues(first: Accounts, ttl: int, run: seq<Action>, user: int, name: string)
    ensures var s := Exec(first, ttl, run);
      && (forall k :: k in s.entries ==>
            && k in s.marks && s.marks[k].assignedAt <= |s.ops|
            && ReadSo(first, s.ops[..s.marks[k].assignedAt], k, s.marks[k].seen) && NextCell(k, s.marks[k].seen).None?)
      && (Balance(user, Payg) in s.entries ==>
            var m := s.marks[Balance(user, Payg)];
            var since := s.ops[m.assignedAt..];
            s.entries[Balance(user, Payg)].usd
              == Value(m.seen) + CreditFolds(since, user) - WalletCharges(since, user))
      && (Balance(user, PlanMode) in s.entries ==>
            var m := s.marks[Balance(user, PlanMode)];
            var since := s.ops[m.assignedAt..];
            s.entries[Balance(user, PlanMode)].usd
              == Value(m.seen) + CreditFolds(since, user) - WalletCharges(since, user) - PlanCharges(since, user))
      && (Spend(name) in s.entries ==>
            var m := s.marks[Spend(name)];
            s.entries[Spend(name)].usd == Value(m.seen) + Spending(s.ops[m.assignedAt..], name))
  {
    EveryRun(first, ttl, run);
    var s := Exec(first, ttl, run);
    forall k | k in s.entries ensures k in s.marks && Explained(first, s.entries[k], s.ops, s.marks[k], k) {}
  }

  lemma {:induction false} UnstoredConcat(a: seq<Row>, b: seq<Row>, c: Cell)
    ensures Unstored(a + b, c) == Unstored(a, c) + Unstored(b, c)
  {
    if b == [] {
      assert a + b == a;
    } else {
      assert (a + b)[..|a + b| - 1] == a + b[..|b| - 1];
      UnstoredConcat(a, b[..|b| - 1], c);
    }
  }

  lemma OneRow(r: Row, c: Cell)
    ensures Unstored([r], c) == if r.cell == c then r.amount else 0.0
  {
    assert [r][..0] == [];
  }

  lemma RowTaken(rows: seq<Row>, i: nat, c: Cell)
    requires i < |rows|
    ensures Unstored(rows, c) ==
      Unstored(rows[..i] + rows[i + 1..], c) + if rows[i].cell == c then rows[i].amount else 0.0
  {
    assert rows == rows[..i] + ([rows[i]] + rows[i + 1..]);
    UnstoredConcat(rows[..i], [rows[i]] + rows[i + 1..], c);
    UnstoredConcat([rows[i]], rows[i + 1..], c);
    UnstoredConcat(rows[..i], rows[i + 1..], c);
    OneRow(rows[i], c);
  }

  /** What an operation does to a cell's true value. Storing a row does nothing: it was true
      before. Folding a credit or a plan charge does nothing either: the database was first. */
  function TrueEffect(a: Accounts, op: Op, c: Cell): real {
    match op
    case ChargeWallet(u, usd) => if usd > 0.0 && c == Billed(u) then Stored(usd) else 0.0
    case AddSpend(name, usd) => if usd > 0.0 && c == Spent(name) then Stored(usd) else 0.0
    case Post(d, amount) => if c == d then amount else 0.0
    case NewGrant(u, credit, _) => if c == PlanCredit(u) then credit - At(a.cells, c) else 0.0
    case _ => 0.0
  }

  lemma TruthStep(a: Accounts, op: Op, c: Cell)
    ensures TrueCell(Posting(a, op), c) == TrueCell(a, c) + TrueEffect(a, op, c)
  {
    match op
    case RowStored(i) => StoredRowStep(a, i, c);
    case ChargeWallet(u, usd) => if usd > 0.0 { NewRowStep(a, Row(Billed(u), Stored(usd)), c); }
    case AddSpend(name, usd) => if usd > 0.0 { NewRowStep(a, Row(Spent(name), Stored(usd)), c); }
    case _ => PostStep(a, op, c);
  }

  lemma PostStep(a: Accounts, op: Op, c: Cell)
    requires !op.RowStored? && !op.ChargeWallet? && !op.AddSpend?
    ensures TrueCell(Posting(a, op), c) == TrueCell(a, c) + TrueEffect(a, op, c)
  {
  }

  lemma StoredRowStep(a: Accounts, i: nat, c: Cell)
    ensures TrueCell(Posting(a, RowStored(i)), c) == TrueCell(a, c)
  {
    if i < |a.rows| {
      RowTaken(a.rows, i, c);
    }
  }

  lemma NewRowStep(a: Accounts, r: Row, c: Cell)
    ensures TrueCell(a.(rows := a.rows + [r]), c) == TrueCell(a, c) + if r.cell == c then r.amount else 0.0
  {
    UnstoredConcat(a.rows, [r], c);
    OneRow(r, c);
  }

  /** What one answer has missed by the end of a history: the rows unstored when it was given,
      and what became true of its cell since. */
  function Missed(first: Accounts, ops: seq<Op>, x: Sample): real
    requires x.at <= |ops|
  {
    Unstored(After(first, ops[..x.at]).rows, x.cell)
      + (TrueCell(After(first, ops), x.cell) - TrueCell(After(first, ops[..x.at]), x.cell))
  }

  /** All answers were given within the first `n` operations. */
  predicate InTime(seen: seq<Sample>, n: nat) { forall i :: 0 <= i < |seen| ==> seen[i].at <= n }

  /** What a whole read has missed, its answers signed as in the value. */
  ghost function MissedAll(first: Accounts, ops: seq<Op>, seen: seq<Sample>): real
    requires InTime(seen, |ops|)
  {
    if seen == [] then 0.0
    else
      var x := seen[|seen| - 1];
      MissedAll(first, ops, seen[..|seen| - 1]) + Signed(x.cell, Missed(first, ops, x))
  }

  /** The cells of a read, at their true values. */
  function TrueSum(a: Accounts, seen: seq<Sample>): real {
    if seen == [] then 0.0
    else TrueSum(a, seen[..|seen| - 1]) + Signed(seen[|seen| - 1].cell, TrueCell(a, seen[|seen| - 1].cell))
  }

  lemma {:induction false} ReadIsInTime(first: Accounts, ops: seq<Op>, k: Key, seen: seq<Sample>)
    requires ReadSo(first, ops, k, seen)
    ensures InTime(seen, |ops|)
  {
    if seen != [] {
      ReadIsInTime(first, ops, k, seen[..|seen| - 1]);
    }
  }

  lemma {:induction false} ReadMisses(first: Accounts, ops: seq<Op>, k: Key, seen: seq<Sample>)
    requires ReadSo(first, ops, k, seen) && InTime(seen, |ops|)
    ensures TrueSum(After(first, ops), seen) - Value(seen) == MissedAll(first, ops, seen)
  {
    if seen != [] {
      ReadMisses(first, ops, k, seen[..|seen| - 1]);
    }
  }

  /** The grant's overage rule at the end against the one the read went by. */
  function Jump(a: Accounts, k: Key, seen: seq<Sample>): real {
    if k.Balance? && k.mode == PlanMode && seen != []
    then (if k.user in a.overage then TrueWallet(a, k.user) else 0.0)
         - (if seen[0].overage then TrueWallet(a, k.user) else 0.0)
    else 0.0
  }

  /** The cells that a finished read has asked. */
  lemma {:induction false} CellsRead(first: Accounts, ops: seq<Op>, k: Key, seen: seq<Sample>)
    requires ReadSo(first, ops, k, seen)
    ensures |seen| <= 3
    ensures forall i :: 0 <= i < |seen| ==>
      NextCell(k, seen[..i]) == Some(seen[i].cell) && Answered(first, ops, k, seen[i])
  {
    if seen != [] {
      var front := seen[..|seen| - 1];
      CellsRead(first, ops, k, front);
      forall i | 0 <= i < |seen|
        ensures NextCell(k, seen[..i]) == Some(seen[i].cell) && Answered(first, ops, k, seen[i])
      {
        if i < |front| { assert seen[..i] == front[..i] && seen[i] == front[i]; }
      }
    }
  }

  lemma TruthIsSum(first: Accounts, ops: seq<Op>, k: Key, seen: seq<Sample>, a: Accounts)
    requires ReadSo(first, ops, k, seen) && NextCell(k, seen).None?
    ensures Truth(a, k) == TrueSum(a, seen) + Jump(a, k, seen)
  {
    CellsRead(first, ops, k, seen);
    if |seen| > 0 { assert seen[..0] == []; SumOne(a, seen[..1]); }
    if |seen| > 1 { assert seen[..2][..1] == seen[..1]; }
    if |seen| > 2 { assert seen[..3][..2] == seen[..2]; }
    assert seen[..|seen|] == seen;
  }

  lemma SumOne(a: Accounts, one: seq<Sample>)
    requires |one| == 1
    ensures TrueSum(a, one) == Signed(one[0].cell, TrueCell(a, one[0].cell))
  {
    assert one[..0] == [];
  }

  /** A finished read against the truth: what its answers have missed, and the jump if the
      grant's overage rule has changed. */
  lemma ReadError(first: Accounts, ops: seq<Op>, k: Key, seen: seq<Sample>)
    requires ReadSo(first, ops, k, seen) && NextCell(k, seen).None?
    ensures InTime(seen, |ops|)
    ensures var a := After(first, ops);
      Truth(a, k) - Value(seen) == MissedAll(first, ops, seen) + Jump(a, k, seen)
  {
    ReadIsInTime(first, ops, k, seen);
    ReadMisses(first, ops, k, seen);
    TruthIsSum(first, ops, k, seen, After(first, ops));
  }

  /** The error of a cached value against the true running total, in every reachable state:
      each answer's unstored rows at its own instant and what landed on its cell before the
      assignment, the jump of the overage rule, and what became true since without being
      folded. */
  lemma CacheError(first: Accounts, ttl: int, run: seq<Action>, k: Key)
    requires k in Exec(first, ttl, run).entries
    ensures var s := Exec(first, ttl, run);
      k in s.marks && var m := s.marks[k];
      && m.assignedAt <= |s.ops| && InTime(m.seen, m.assignedAt)
      && var before := s.ops[..m.assignedAt];
         var start, now := After(first, before), After(first, s.ops);
         Truth(now, k) - s.entries[k].usd
           == MissedAll(first, before, m.seen) + Jump(start, k, m.seen)
              + (Truth(now, k) - Truth(start, k) - Folds(s.ops[m.assignedAt..], k))
  {
    EveryRun(first, ttl, run);
    var s := Exec(first, ttl, run);
    var m := s.marks[k];
    assert Explained(first, s.entries[k], s.ops, m, k);
    ReadError(first, s.ops[..m.assignedAt], k, m.seen);
  }

  // ------------------------------------------------------- in terms of operations

  /** Wallet charges as their rows keep them. */
  function WalletRows(ops: seq<Op>, user: int): real {
    if ops == [] then 0.0
    else
      var op := ops[|ops| - 1];
      WalletRows(ops[..|ops| - 1], user) +
        if op.ChargeWallet? && op.user == user && op.usd > 0.0 then Stored(op.usd) else 0.0
  }

  function SpendRows(ops: seq<Op>, name: string): real {
    if ops == [] then 0.0
    else
      var op := ops[|ops| - 1];
      SpendRows(ops[..|ops| - 1], name) +
        if op.AddSpend? && op.name == name && op.usd > 0.0 then Stored(op.usd) else 0.0
  }

  /** Statements on one cell. */
  function Posts(ops: seq<Op>, c: Cell): real {
    if ops == [] then 0.0
    else
      var op := ops[|ops| - 1];
      Posts(ops[..|ops| - 1], c) + if op.Post? && op.cell == c then op.amount else 0.0
  }

  /** No operation gives the user another grant. */
  predicate SameGrant(ops: seq<Op>, user: int) {
    ops != [] ==> SameGrant(ops[..|ops| - 1], user) && !(ops[|ops| - 1].NewGrant? && ops[|ops| - 1].user == user)
  }

  /** What a history does to a cell's true value. */
  function Landed(ops: seq<Op>, c: Cell): real {
    Posts(ops, c) +
      match c
      case Billed(u) => WalletRows(ops, u)
      case Spent(name) => SpendRows(ops, name)
      case _ => 0.0
  }

  lemma {:induction false} AfterConcat(first: Accounts, a: seq<Op>, b: seq<Op>)
    ensures After(first, a + b) == After(After(first, a), b)
  {
    if b == [] {
      assert a + b == a;
    } else {
      assert (a + b)[..|a + b| - 1] == a + b[..|b| - 1];
      AfterConcat(first, a, b[..|b| - 1]);
    }
  }

  lemma LandedSnoc(a: Accounts, ops: seq<Op>, op: Op, c: Cell)
    requires c.PlanCredit? ==> SameGrant(ops + [op], c.user)
    ensures Landed(ops + [op], c) == Landed(ops, c) + TrueEffect(a, op, c)
    ensures c.PlanCredit? ==> SameGrant(ops, c.user)
  {
    assert (ops + [op])[..|ops|] == ops;
  }

  ghost predicate Totals(first: Accounts, a: Accounts, c: Cell, landed: real) {
    TrueCell(a, c) == TrueCell(first, c) + landed
  }

  lemma {:induction false} TrueTotal(first: Accounts, ops: seq<Op>, c: Cell)
    requires c.PlanCredit? ==> SameGrant(ops, c.user)
    ensures Totals(first, After(first, ops), c, Landed(ops, c))
  {
    if ops != [] {
      var front, op := ops[..|ops| - 1], ops[|ops| - 1];
      assert ops == front + [op];
      LandedSnoc(After(first, front), front, op, c);
      TrueTotal(first, front, c);
      TruthStep(After(first, front), op, c);
    }
  }

  /** What lands on a cell in a window: statements, and the rows of charges whether stored or
      not. */
  lemma CellLanded(first: Accounts, ops: seq<Op>, i: nat, c: Cell)
    requires i <= |ops| && (c.PlanCredit? ==> SameGrant(ops[i..], c.user))
    ensures TrueCell(After(first, ops), c) - TrueCell(After(first, ops[..i]), c) == Landed(ops[i..], c)
  {
    assert ops == ops[..i] + ops[i..];
    AfterConcat(first, ops[..i], ops[i..]);
    TrueTotal(After(first, ops[..i]), ops[i..], c);
  }

  /** What an answer has missed, by operations. */
  lemma AnswerMissed(first: Accounts, ops: seq<Op>, x: Sample)
    requires x.at <= |ops| && (x.cell.PlanCredit? ==> SameGrant(ops[x.at..], x.cell.user))
    ensures Missed(first, ops, x) == Unstored(After(first, ops[..x.at]).rows, x.cell) + Landed(ops[x.at..], x.cell)
  {
    CellLanded(first, ops, x.at, x.cell);
  }

  lemma {:induction false} OverageStays(first: Accounts, ops: seq<Op>, user: int)
    requires SameGrant(ops, user)
    ensures user in After(first, ops).overage <==> user in first.overage
  {
    if ops != [] {
      OverageStays(first, ops[..|ops| - 1], user);
    }
  }

  /** An answer is still right: no row of its cell was under way when it was given, and
      the rows and statements on the cell since add up to nothing. */
  ghost predicate StillRight(first: Accounts, ops: seq<Op>, x: Sample) {
    && x.at <= |ops|
    && (forall i :: 0 <= i < |After(first, ops[..x.at]).rows| ==> After(first, ops[..x.at]).rows[i].cell != x.cell)
    && Landed(ops[x.at..], x.cell) == 0.0
    && (x.cell.PlanCredit? ==> SameGrant(ops[x.at..], x.cell.user))
  }

  lemma {:induction false} NothingUnstored(rows: seq<Row>, c: Cell)
    requires forall i :: 0 <= i < |rows| ==> rows[i].cell != c
    ensures Unstored(rows, c) == 0.0
  {
    if rows != [] {
      NothingUnstored(rows[..|rows| - 1], c);
    }
  }

  lemma {:induction false} NothingMissed(first: Accounts, ops: seq<Op>, seen: seq<Sample>)
    requires InTime(seen, |ops|) && forall i :: 0 <= i < |seen| ==> StillRight(first, ops, seen[i])
    ensures MissedAll(first, ops, seen) == 0.0
  {
    if seen != [] {
      var x := seen[|seen| - 1];
      assert StillRight(first, ops, x);
      NothingMissed(first, ops, seen[..|seen| - 1]);
      AnswerMissed(first, ops, x);
      NothingUnstored(After(first, ops[..x.at]).rows, x.cell);
    }
  }

  lemma OverageStaysSince(first: Accounts, ops: seq<Op>, i: nat, user: int)
    requires i <= |ops| && SameGrant(ops[i..], user)
    ensures user in After(first, ops).overage <==> user in After(first, ops[..i]).overage
  {
    assert ops == ops[..i] + ops[i..];
    AfterConcat(first, ops[..i], ops[i..]);
    OverageStays(After(first, ops[..i]), ops[i..], user);
  }

  /** The first answer of a plan balance, while it is still right, has the grant's rule. */
  lemma SameRule(first: Accounts, ops: seq<Op>, user: int, x: Sample)
    requires x.cell == PlanCredit(user) && Answered(first, ops, Balance(user, PlanMode), x) && StillRight(first, ops, x)
    ensures x.overage <==> user in After(first, ops).overage
  {
    OverageStaysSince(first, ops, x.at, user);
  }

  lemma NoJump(first: Accounts, ops: seq<Op>, k: Key, seen: seq<Sample>)
    requires ReadSo(first, ops, k, seen) && NextCell(k, seen).None?
    requires forall i :: 0 <= i < |seen| ==> StillRight(first, ops, seen[i])
    ensures Jump(After(first, ops), k, seen) == 0.0
  {
    if k.Balance? && k.mode == PlanMode && seen != [] {
      CellsRead(first, ops, k, seen);
      assert seen[..0] == [];
      SameRule(first, ops, k.user, seen[0]);
    }
  }

  /** The comment's self-correction. Whatever error there is at an assignment is what its
      answers have missed and the jump; if every answer is still right then, whatever else has
      happened meanwhile, the cached value is the truth. */
  lemma RefreshCorrects(first: Accounts, ttl: int, run: seq<Action>, t: nat, now: int)
    requires var s := Exec(first, ttl, run);
      t in s.readers && s.readers[t].stage.Through? && (s.readers[t].refresh || s.readers[t].key !in s.entries)
    ensures var s := Exec(first, ttl, run);
      var s', r, a := Finished(s, t, now), s.readers[t], After(first, s.ops);
      var seen := r.stage.seen;
      && r.key in s'.entries && InTime(seen, |s.ops|)
      && Truth(a, r.key) - s'.entries[r.key].usd == MissedAll(first, s.ops, seen) + Jump(a, r.key, seen)
      && ((forall i :: 0 <= i < |seen| ==> StillRight(first, s.ops, seen[i])) ==>
            s'.entries[r.key].usd == Truth(a, r.key))
  {
    EveryRun(first, ttl, run);
    var s := Exec(first, ttl, run);
    var r := s.readers[t];
    assert InHand(first, r, s.ops);
    if r.refresh {
      assert RefreshOf(s.readers, t, r.key);
    }
    ReadError(first, s.ops, r.key, r.stage.seen);
    if forall i :: 0 <= i < |r.stage.seen| ==> StillRight(first, s.ops, r.stage.seen[i]) {
      NothingMissed(first, s.ops, r.stage.seen);
      NoJump(first, s.ops, r.key, r.stage.seen);
    }
  }

  /** Since an assignment a payg balance drifts from the truth by top-ups and foreign changes
      not folded, folded credits not posted, and the rounding of its rows. */
  lemma PaygErrorSince(first: Accounts, ops: seq<Op>, n: nat, user: int)
    requires n <= |ops|
    ensures var k, since := Balance(user, Payg), ops[n..];
      Truth(After(first, ops), k) - Truth(After(first, ops[..n]), k) - Folds(since, k)
        == (Posts(since, Credits(user)) - CreditFolds(since, user)) - Posts(since, Billed(user))
           + (WalletCharges(since, user) - WalletRows(since, user))
  {
    CellLanded(first, ops, n, Credits(user));
    CellLanded(first, ops, n, Billed(user));
  }

  /** A key's spend likewise: changes by others, spend ageing out, and rounding. */
  lemma SpendErrorSince(first: Accounts, ops: seq<Op>, n: nat, name: string)
    requires n <= |ops|
    ensures var k, since := Spend(name), ops[n..];
      Truth(After(first, ops), k) - Truth(After(first, ops[..n]), k) - Folds(since, k)
        == Posts(since, Spent(name)) + (SpendRows(since, name) - Spending(since, name))
  {
    CellLanded(first, ops, n, Spent(name));
  }

  /** The plan balance, while the user's grant stays: deductions not folded on top of that,
      and every wallet charge when the grant may not spend the wallet. */
  lemma PlanErrorSince(first: Accounts, ops: seq<Op>, n: nat, user: int)
    requires n <= |ops| && SameGrant(ops[n..], user)
    ensures var k, since := Balance(user, PlanMode), ops[n..];
      var a := After(first, ops[..n]);
      Truth(After(first, ops), k) - Truth(a, k) - Folds(since, k)
        == (Posts(since, PlanCredit(user)) + PlanCharges(since, user))
           + (if user in a.overage
              then Posts(since, Credits(user)) - Posts(since, Billed(user)) - WalletRows(since, user) else 0.0)
           + WalletCharges(since, user) - CreditFolds(since, user)
  {
    CellLanded(first, ops, n, PlanCredit(user));
    CellLanded(first, ops, n, Credits(user));
    CellLanded(first, ops, n, Billed(user));
    OverageStaysSince(first, ops, n, user);
  }

  /** Two refreshes are never in flight for one key, and none is lost: an entry marked
      refreshing has one. */
  lemma OneRefreshPerKey(first: Accounts, ttl: int, run: seq<Action>, k: Key)
    ensures var s := Exec(first, ttl, run);
      && (forall t, u :: RefreshOf(s.readers, t, k) && RefreshOf(s.readers, u, k) ==> t == u)
      && ((exists t :: RefreshOf(s.readers, t, k)) <==> k in s.entries && s.entries[k].refreshing)
  {
    EveryRun(first, ttl, run);
  }

  // ------------------------------------------------------------ what a read can miss

  lemma OneMore(first: Accounts, ttl: int, run: seq<Action>, a: Action)
    ensures Exec(first, ttl, run + [a]) == Next(first, ttl, Exec(first, ttl, run), a)
  {
    assert (run + [a])[..|run|] == run;
  }

  /** A user owes one dollar by a row under way to the database, and has no credits. */
  const OWING := Accounts(map[], {}, [Row(Billed(1), 1.0)])

  const WALLET := Balance(1, Payg)

  /** The truth is -1 and no statement comes between, yet a read misses the row. */
  const HASTY: seq<Action> := [Lookup(0, WALLET, 0), Statement(0, true), Statement(0, true), Finish(0, 0)]

  lemma FourSteps(ttl: int, a: Action, b: Action, c: Action, d: Action)
    ensures Exec(OWING, ttl, [a, b, c, d])
      == Next(OWING, ttl, Next(OWING, ttl, Next(OWING, ttl, Next(OWING, ttl, INIT, a), b), c), d)
  {
    OneMore(OWING, ttl, [], a);
    OneMore(OWING, ttl, [a], b);
    OneMore(OWING, ttl, [a, b], c);
    OneMore(OWING, ttl, [a, b, c], d);
    assert [] + [a] == [a] && [a] + [b] == [a, b] && [a, b] + [c] == [a, b, c] && [a, b, c] + [d] == [a, b, c, d];
  }

  lemma TwoAnswers(x: Sample, y: Sample)
    ensures Value([x, y]) == Signed(x.cell, x.usd) + Signed(y.cell, y.usd)
  {
    assert [x, y][..1] == [x] && [x][..0] == [];
    assert Value([x]) == Value([]) + Signed(x.cell, x.usd);
  }

  /** The statements of a wallet read. */
  lemma FirstAnswer(ops: seq<Op>)
    ensures AfterStatement(OWING, Reader(WALLET, false, Asking([])), ops, true)
      == Reader(WALLET, false, Asking([Ask(After(OWING, ops), WALLET, Credits(1), |ops|)]))
  {
    var x := Ask(After(OWING, ops), WALLET, Credits(1), |ops|);
    assert [] + [x] == [x];
  }

  lemma SecondAnswer(ops: seq<Op>, x: Sample)
    ensures var y := Ask(After(OWING, ops), WALLET, Billed(1), |ops|);
      && AfterStatement(OWING, Reader(WALLET, false, Asking([x])), ops, true)
           == Reader(WALLET, false, Through([x, y]))
      && Value([x, y]) == Signed(x.cell, x.usd) + Signed(y.cell, y.usd)
  {
    var y := Ask(After(OWING, ops), WALLET, Billed(1), |ops|);
    assert [x] + [y] == [x, y];
    TwoAnswers(x, y);
  }

  /** So a refresh, or a seed, does not correct what is still on its way: nothing happens
      during this read and it still misses the row. */
  lemma RefreshMissesRow(ttl: int)
    ensures var s := Exec(OWING, ttl, HASTY);
      && WALLET in s.entries && s.entries[WALLET].usd == 0.0
      && s.ops == [] && Truth(After(OWING, s.ops), WALLET) == -1.0
  {
    FourSteps(ttl, HASTY[0], HASTY[1], HASTY[2], HASTY[3]);
    FirstAnswer([]);
    SecondAnswer([], Sample(Credits(1), 0.0, false, 0));
    OneRow(OWING.rows[0], Credits(1));
    OneRow(OWING.rows[0], Billed(1));
  }

  const TOPUP := Post(Credits(1), 5.0)

  /** Between the two statements of a read a top-up is posted and the row is stored. */
  const TORN: seq<Action> :=
    [Lookup(0, WALLET, 0), Statement(0, true), Do(TOPUP), Do(RowStored(0))] + [Statement(0, true), Finish(0, 0)]

  lemma TwoPostings(first: Accounts, p: Op, q: Op)
    ensures After(first, []) == first && After(first, [p]) == Posting(first, p)
    ensures After(first, [p, q]) == Posting(Posting(first, p), q)
  {
    assert [p, q][..1] == [p] && [p][..0] == [];
    assert After(first, [p]) == Posting(After(first, []), p);
  }

  lemma OwingThen(n: nat)
    requires n <= 2
    ensures var a := After(OWING, [TOPUP, RowStored(0)][..n]);
      && At(a.cells, Credits(1)) == (if n == 0 then 0.0 else 5.0)
      && At(a.cells, Billed(1)) == (if n < 2 then 0.0 else 1.0)
      && (n == 2 ==> a.rows == [])
  {
    TwoPostings(OWING, TOPUP, RowStored(0));
    var ops := [TOPUP, RowStored(0)];
    assert ops[..0] == [] && ops[..1] == [TOPUP] && ops[..2] == ops;
  }

  lemma TornStart(ttl: int)
    ensures var s := Exec(OWING, ttl, TORN[..4]);
      && s.ops == [TOPUP, RowStored(0)] && s.entries == map[] && 0 in s.readers
      && s.readers[0] == Reader(WALLET, false, Asking([Sample(Credits(1), 0.0, false, 0)]))
  {
    FourSteps(ttl, TORN[0], TORN[1], TORN[2], TORN[3]);
    assert TORN[..4] == [TORN[0], TORN[1], TORN[2], TORN[3]];
    FirstAnswer([]);
    assert [TOPUP] + [RowStored(0)] == [TOPUP, RowStored(0)];
  }

  /** A read that other statements come between can be a value that the database has never
      had: here the wallet reads -1, while it was 0, then 5, then 4. */
  lemma TornRead(ttl: int)
    ensures var s := Exec(OWING, ttl, TORN);
      && WALLET in s.entries && s.entries[WALLET].usd == -1.0
      && Truth(After(OWING, s.ops), WALLET) == 4.0
      && forall n :: 0 <= n <= |s.ops| ==>
           var cells := After(OWING, s.ops[..n]).cells; At(cells, Credits(1)) - At(cells, Billed(1)) >= 0.0
  {
    TornStart(ttl);
    OneMore(OWING, ttl, TORN[..4], TORN[4]);
    OneMore(OWING, ttl, TORN[..5], TORN[5]);
    assert TORN[..4] + [TORN[4]] == TORN[..5] && TORN[..5] + [TORN[5]] == TORN;
    var ops := [TOPUP, RowStored(0)];
    SecondAnswer(ops, Sample(Credits(1), 0.0, false, 0));
    OwingThen(2);
    assert ops[..2] == ops;
    forall n | 0 <= n <= 2
      ensures var cells := After(OWING, ops[..n]).cells; At(cells, Credits(1)) - At(cells, Billed(1)) >= 0.0
    {
      OwingThen(n);
    }
  }
}
