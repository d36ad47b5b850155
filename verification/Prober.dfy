/** The background prober (internal/service/health/prober.go): its own de-bounce
    counters and how it feeds the tracker. How the two counts compose over its passes is in
    ProberRuns. */
module Prober {
  import opened Common
  import opened Breaker
  import opened Tracker

  datatype Verdict = Green | Yellow | Red

  /** Times are in milliseconds. */
  datatype ProbeConfig = ProbeConfig(
    interval: int, concurrency: int, redThreshold: int, greenThreshold: int, timeout: int, slowThreshold: int)
  {
    predicate Usable() { redThreshold >= 1 && greenThreshold >= 1 && slowThreshold >= 1 }

    /** Each unsafe value falls back to its default on its own, concurrency to the nearer end
        of its range. */
    function Normalize(): (c: ProbeConfig)
      ensures c.Usable() && c.interval >= 10000 && 1 <= c.concurrency <= 16 && c.timeout >= 1
      ensures c.interval == if interval >= 10000 then interval else 60000
      ensures c.concurrency == concurrency || (c.concurrency == 1 > concurrency) || (c.concurrency == 16 < concurrency)
      ensures c.redThreshold == if redThreshold >= 1 then redThreshold else 3
      ensures c.greenThreshold == if greenThreshold >= 1 then greenThreshold else 1
      ensures c.timeout == if timeout >= 1 then timeout else 15000
      ensures c.slowThreshold == if slowThreshold >= 1 then slowThreshold else 2500
    {
      ProbeConfig(if interval < 10000 then DEFAULTS.interval else interval,
                  if concurrency < 1 then 1 else if concurrency > 16 then 16 else concurrency,
                  if redThreshold < 1 then DEFAULTS.redThreshold else redThreshold,
                  if greenThreshold < 1 then DEFAULTS.greenThreshold else greenThreshold,
                  if timeout <= 0 then DEFAULTS.timeout else timeout,
                  if slowThreshold <= 0 then DEFAULTS.slowThreshold else slowThreshold)
    }
  }

  const DEFAULTS := ProbeConfig(60000, 4, 3, 1, 15000, 2500)

  /** One finished connectivity test. */
  datatype Test = Test(id: int, status: Verdict, latency: int, msg: string, at: int) {

    /** The failure a red test reports. */
    function Reported(): Event { Failure(at, "health probe: " + msg) }

    /** A reachable but slow upstream counts as yellow. */
    function Judged(cfg: ProbeConfig): Verdict {
      if status == Green && latency > cfg.slowThreshold then Yellow else status
    }
  }

  datatype Counters = Counters(reds: nat, greens: nat)

  const NONE := Counters(0, 0)

  function Count(c: Counters, v: Verdict): Counters {
    match v
    case Green => Counters(0, c.greens + 1)
    case Red => Counters(c.reds + 1, 0)
    case Yellow => c
  }

  /** The tracker events a test causes, given the counters that include it. */
  function Feed(cfg: ProbeConfig, c: Counters, t: Test): seq<Event> {
    match t.Judged(cfg)
    case Green => if c.greens >= cfg.greenThreshold then [Success(t.at)] else []
    case Red => if c.reds >= cfg.redThreshold then [t.Reported()] else []
    case Yellow => []
  }

  function At(m: map<int, Counters>, id: int): Counters { if id in m then m[id] else NONE }

  /** The counters after the first n tests. */
  function CountAll(cfg: ProbeConfig, m: map<int, Counters>, tests: seq<Test>, n: nat): map<int, Counters>
    requires n <= |tests|
  {
    if n == 0 then m
    else
      var before, t := CountAll(cfg, m, tests, n - 1), tests[n - 1];
      if t.Judged(cfg) == Yellow then before
      else before[t.id := Count(At(before, t.id), t.Judged(cfg))]
  }

  /** The events the n-th test causes. */
  function FedBy(cfg: ProbeConfig, m: map<int, Counters>, tests: seq<Test>, n: nat): seq<Event>
    requires 0 < n <= |tests|
  {
    Feed(cfg, At(CountAll(cfg, m, tests, n), tests[n - 1].id), tests[n - 1])
  }

  /** The tracker calls made by the first n tests. */
  function CallsAll(cfg: ProbeConfig, conf: int -> Config, m: map<int, Counters>, tests: seq<Test>, n: nat): seq<Call>
    requires n <= |tests|
  {
    if n == 0 then []
    else
      var t := tests[n - 1];
      CallsAll(cfg, conf, m, tests, n - 1)
      + Calls(t.id, conf(t.id), FedBy(cfg, m, tests, n))
  }

  function Calls(id: int, conf: Config, fed: seq<Event>): seq<Call> {
    if fed == [] then [] else [Call(id, Item(conf, fed[0]))]
  }

  function Configs(default: Config, lookup: Option<int -> Config>): int -> Config {
    id => Effective(default, lookup, id)
  }

  /** One more test, observed by the loop. */
  lemma OneMoreTest(cfg: ProbeConfig, conf: int -> Config, m: map<int, Counters>, tests: seq<Test>, i: nat,
                    now: map<int, Counters>, h: seq<Call>, made: seq<Call>)
    requires i < |tests|
    requires now == var before, t := CountAll(cfg, m, tests, i), tests[i];
      if t.Judged(cfg) == Yellow then before else before[t.id := Count(At(before, t.id), t.Judged(cfg))]
    requires made == Calls(tests[i].id, conf(tests[i].id), Feed(cfg, At(now, tests[i].id), tests[i]))
    ensures now == CountAll(cfg, m, tests, i + 1)
    ensures h + CallsAll(cfg, conf, m, tests, i) + made == h + CallsAll(cfg, conf, m, tests, i + 1)
  {
    assert CallsAll(cfg, conf, m, tests, i + 1) == CallsAll(cfg, conf, m, tests, i) + made;
  }

  /** Counters of accounts still in the pool. */
  function Kept(m: map<int, Counters>, live: set<int>): map<int, Counters> {
    map id | id in m && id in live :: m[id]
  }

  class Prober {
    const tracker: Tracker
    var counters: map<int, Counters>

    constructor (t: Tracker)
      ensures tracker == t && counters == map[]
    {
      tracker, counters := t, map[];
    }

    /** The verdict half of one pass: apply the finished tests in completion order, then
        forget accounts that left the pool. */
    method ApplyTests(cfg: ProbeConfig, tests: seq<Test>, live: set<int>)
      requires tracker.Valid()
      modifies this, tracker
      ensures SameTracker(old(tracker.defaultConfig), old(tracker.lookup))
      ensures counters == Kept(CountAll(cfg, old(counters), tests, |tests|), live)
      ensures tracker.history == old(tracker.history) +
        CallsAll(cfg, Configs(tracker.defaultConfig, tracker.lookup), old(counters), tests, |tests|)
    {
      ghost var conf := Configs(tracker.defaultConfig, tracker.lookup);
      ghost var m, h := counters, tracker.history;
      assert h + CallsAll(cfg, conf, m, tests, 0) == h;
      var i := 0;
      while i < |tests|
        invariant 0 <= i <= |tests|
        invariant SameTracker(old(tracker.defaultConfig), old(tracker.lookup))
        invariant counters == CountAll(cfg, m, tests, i)
        invariant tracker.history == h + CallsAll(cfg, conf, m, tests, i)
      {
        ghost var made := Observe(cfg, tests[i]);
        OneMoreTest(cfg, conf, m, tests, i, counters, h, made);
        i := i + 1;
      }
      counters := Kept(counters, live);
    }

    ghost predicate SameTracker(default: Config, lookup: Option<int -> Config>)
      reads tracker
    {
      tracker.Valid() && tracker.defaultConfig == default && tracker.lookup == lookup
    }

    /** One result of the loop body. */
    method Observe(cfg: ProbeConfig, t: Test) returns (ghost made: seq<Call>)
      requires tracker.Valid()
      modifies this, tracker
      ensures SameTracker(old(tracker.defaultConfig), old(tracker.lookup))
      ensures counters == if t.Judged(cfg) == Yellow then old(counters)
                          else old(counters)[t.id := Count(At(old(counters), t.id), t.Judged(cfg))]
      ensures tracker.history == old(tracker.history) + made
      ensures made == Calls(t.id, tracker.ConfigFor(t.id), Feed(cfg, At(counters, t.id), t))
    {
      made := [];
      var verdict := t.status;
      if verdict == Green && t.latency > cfg.slowThreshold {
        verdict := Yellow;
      }
      var c := if t.id in counters then counters[t.id] else Counters(0, 0);
      match verdict {
        case Yellow =>
        case Green =>
          c := Counters(0, c.greens + 1);
          counters := counters[t.id := c];
          if c.greens >= cfg.greenThreshold {
            tracker.RecordSuccess(t.id, t.at);
            made := [Call(t.id, Item(tracker.ConfigFor(t.id), Success(t.at)))];
          }
        case Red =>
          c := Counters(c.reds + 1, 0);
          counters := counters[t.id := c];
          if c.reds >= cfg.redThreshold {
            tracker.RecordFailure(t.id, t.at, "health probe: " + t.msg);
            made := [Call(t.id, Item(tracker.ConfigFor(t.id), Failure(t.at, "health probe: " + t.msg)))];
          }
      }
    }
  }

  // ------------------------------------------------------------ one account's view

  /** The tests of one account among the first n. */
  function TestsOf(tests: seq<Test>, n: nat, id: int): seq<Test>
    requires n <= |tests|
  {
    if n == 0 then []
    else TestsOf(tests, n - 1, id) + if tests[n - 1].id == id then [tests[n - 1]] else []
  }

  /** One account's counters after its own tests. */
  function Counted(cfg: ProbeConfig, c0: Counters, ts: seq<Test>): Counters {
    if ts == [] then c0 else Count(Counted(cfg, c0, ts[..|ts| - 1]), ts[|ts| - 1].Judged(cfg))
  }

  /** What the tracker hears about one account from its own tests. */
  function Fed(cfg: ProbeConfig, conf: Config, c0: Counters, ts: seq<Test>): seq<Item> {
    if ts == [] then []
    else
      Fed(cfg, conf, c0, ts[..|ts| - 1]) + Items(conf, Feed(cfg, Counted(cfg, c0, ts), ts[|ts| - 1]))
  }

  function Items(conf: Config, fed: seq<Event>): seq<Item> {
    if fed == [] then [] else [Item(conf, fed[0])]
  }

  lemma FedSnoc(cfg: ProbeConfig, conf: Config, c0: Counters, ts: seq<Test>, t: Test)
    ensures Counted(cfg, c0, ts + [t]) == Count(Counted(cfg, c0, ts), t.Judged(cfg))
    ensures Fed(cfg, conf, c0, ts + [t])
      == Fed(cfg, conf, c0, ts) + Items(conf, Feed(cfg, Counted(cfg, c0, ts + [t]), t))
  {
    assert (ts + [t])[..|ts|] == ts;
  }

  /** An account's counters depend on its own tests only, however they interleave with
      those of other accounts. */
  lemma {:induction false} CountersAreIndependent(cfg: ProbeConfig, m: map<int, Counters>,
                                                     tests: seq<Test>, n: nat, id: int)
    requires n <= |tests|
    ensures At(CountAll(cfg, m, tests, n), id) == Counted(cfg, At(m, id), TestsOf(tests, n, id))
  {
    if n > 0 {
      CountersAreIndependent(cfg, m, tests, n - 1, id);
      var mine := TestsOf(tests, n - 1, id);
      if tests[n - 1].id == id {
        FedSnoc(cfg, Config(0, 0, 0), At(m, id), mine, tests[n - 1]);
      } else {
        Unchanged(mine);
      }
    }
  }

  /** What account id hears among the first n tests, read off the shared counters. */
  function Heard(cfg: ProbeConfig, conf: Config, m: map<int, Counters>, tests: seq<Test>, n: nat, id: int): seq<Item>
    requires n <= |tests|
  {
    if n == 0 then []
    else
      Heard(cfg, conf, m, tests, n - 1, id) +
        if tests[n - 1].id == id then Items(conf, FedBy(cfg, m, tests, n)) else []
  }

  ghost predicate HeardAs(calls: seq<Call>, id: int, items: seq<Item>) { Project(calls, id) == items }

  lemma {:induction false} CallsAreHeard(cfg: ProbeConfig, conf: int -> Config, m: map<int, Counters>,
                                            tests: seq<Test>, n: nat, id: int)
    requires n <= |tests|
    ensures HeardAs(CallsAll(cfg, conf, m, tests, n), id, Heard(cfg, conf(id), m, tests, n, id))
  {
    if n > 0 {
      var calls, heard := CallsAll(cfg, conf, m, tests, n - 1), Heard(cfg, conf(id), m, tests, n - 1, id);
      CallsAreHeard(cfg, conf, m, tests, n - 1, id);
      OneMoreHeard(calls, heard, tests[n - 1].id, conf(tests[n - 1].id), FedBy(cfg, m, tests, n), id, conf(id));
    }
  }

  lemma OneMoreHeard(calls: seq<Call>, heard: seq<Item>, account: int, conf: Config, fed: seq<Event>,
                     id: int, mine: Config)
    requires HeardAs(calls, id, heard) && (account == id ==> conf == mine)
    ensures HeardAs(calls + Calls(account, conf, fed), id, heard + if account == id then Items(mine, fed) else [])
  {
    ProjectCalls(calls, account, conf, fed, id);
  }

  lemma {:induction false} HeardIsFed(cfg: ProbeConfig, conf: Config, m: map<int, Counters>,
                                         tests: seq<Test>, n: nat, id: int)
    requires n <= |tests|
    ensures Heard(cfg, conf, m, tests, n, id) == Fed(cfg, conf, At(m, id), TestsOf(tests, n, id))
  {
    if n > 0 {
      HeardIsFed(cfg, conf, m, tests, n - 1, id);
      CountersAreIndependent(cfg, m, tests, n, id);
      FedSnoc(cfg, conf, At(m, id), TestsOf(tests, n - 1, id), tests[n - 1]);
      Unchanged(TestsOf(tests, n - 1, id));
      Unchanged(Heard(cfg, conf, m, tests, n - 1, id));
    }
  }

  /** And so does what the tracker hears about it. */
  lemma ProbesAreIndependent(cfg: ProbeConfig, conf: int -> Config, m: map<int, Counters>, tests: seq<Test>, id: int)
    ensures Project(CallsAll(cfg, conf, m, tests, |tests|), id)
         == Fed(cfg, conf(id), At(m, id), TestsOf(tests, |tests|, id))
  {
    CallsAreHeard(cfg, conf, m, tests, |tests|, id);
    HeardIsFed(cfg, conf(id), m, tests, |tests|, id);
  }

  lemma ProjectCalls(h: seq<Call>, account: int, conf: Config, fed: seq<Event>, id: int)
    ensures Project(h + Calls(account, conf, fed), id) ==
      Project(h, id) + (if account == id then Items(conf, fed) else [])
  {
    Unchanged(h);
    Unchanged(Project(h, id));
    if fed != [] {
      ProjectSnoc(h, Call(account, Item(conf, fed[0])), id);
    }
  }

  lemma Unchanged<T>(s: seq<T>)
    ensures s + [] == s
  {
  }
}
