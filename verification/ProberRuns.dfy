/** Runs of the prober, pass by pass, and how its red count composes with the breaker's
    failure count. A pass applies its tests and then forgets the counters of accounts that
    are not in the pool (internal/service/health/prober.go:185-269); the breaker is only
    told about tests. One probe configuration is in force throughout. */
module ProberRuns {
  import opened Common
  import opened Breaker
  import opened Tracker
  import opened Prober

  /** One pass: the finished tests in completion order, and the accounts in the pool. */
  datatype Pass = Pass(tests: seq<Test>, live: set<int>)

  function CountersAfter(cfg: ProbeConfig, passes: seq<Pass>): map<int, Counters> {
    if passes == [] then map[]
    else
      var p := passes[|passes| - 1];
      Kept(CountAll(cfg, CountersAfter(cfg, passes[..|passes| - 1]), p.tests, |p.tests|), p.live)
  }

  function HistoryAfter(cfg: ProbeConfig, conf: int -> Config, passes: seq<Pass>): seq<Call> {
    if passes == [] then []
    else
      var front, p := passes[..|passes| - 1], passes[|passes| - 1];
      HistoryAfter(cfg, conf, front) + CallsAll(cfg, conf, CountersAfter(cfg, front), p.tests, |p.tests|)
  }

  // --------------------------------------------------------- one account's view

  /** What happens to one account: a test, or a pass without it in the pool. */
  datatype Step = Probe(t: Test) | Leave

  function Probes(ts: seq<Test>): seq<Step> {
    if ts == [] then [] else Probes(ts[..|ts| - 1]) + [Probe(ts[|ts| - 1])]
  }

  function StepsOf(p: Pass, id: int): seq<Step> {
    Probes(TestsOf(p.tests, |p.tests|, id)) + if id in p.live then [] else [Leave]
  }

  function Steps(passes: seq<Pass>, id: int): seq<Step> {
    if passes == [] then [] else Steps(passes[..|passes| - 1], id) + StepsOf(passes[|passes| - 1], id)
  }

  function CountStep(cfg: ProbeConfig, c: Counters, s: Step): Counters {
    if s.Leave? then NONE else Count(c, s.t.Judged(cfg))
  }

  /** What the breaker is told, given the counters after the step. */
  function FeedStep(cfg: ProbeConfig, c: Counters, s: Step): seq<Event> {
    if s.Leave? then [] else Feed(cfg, c, s.t)
  }

  function Tally(cfg: ProbeConfig, ss: seq<Step>): Counters {
    if ss == [] then NONE else CountStep(cfg, Tally(cfg, ss[..|ss| - 1]), ss[|ss| - 1])
  }

  function Told(cfg: ProbeConfig, conf: Config, ss: seq<Step>): seq<Item> {
    if ss == [] then []
    else Told(cfg, conf, ss[..|ss| - 1]) + Items(conf, FeedStep(cfg, Tally(cfg, ss), ss[|ss| - 1]))
  }

  lemma StepSnoc(cfg: ProbeConfig, conf: Config, ss: seq<Step>, s: Step)
    ensures Tally(cfg, ss + [s]) == CountStep(cfg, Tally(cfg, ss), s)
    ensures Told(cfg, conf, ss + [s]) ==
      Told(cfg, conf, ss) + Items(conf, FeedStep(cfg, CountStep(cfg, Tally(cfg, ss), s), s))
  {
    assert (ss + [s])[..|ss|] == ss;
  }

  /** An account's view: the prober's counters, and what the tracker was told. */
  ghost predicate Views(cfg: ProbeConfig, conf: Config, ss: seq<Step>, c: Counters, told: seq<Item>) {
    Tally(cfg, ss) == c && Told(cfg, conf, ss) == told
  }

  lemma ViewsSnoc(cfg: ProbeConfig, conf: Config, ss: seq<Step>, c: Counters, told: seq<Item>, s: Step)
    requires Views(cfg, conf, ss, c, told)
    ensures Views(cfg, conf, ss + [s], CountStep(cfg, c, s), told + Items(conf, FeedStep(cfg, CountStep(cfg, c, s), s)))
  {
    StepSnoc(cfg, conf, ss, s);
  }

  /** What an account's own tests make of its counters, and what they tell. */
  ghost predicate Makes(cfg: ProbeConfig, conf: Config, c0: Counters, ts: seq<Test>, c: Counters, fed: seq<Item>) {
    Counted(cfg, c0, ts) == c && Fed(cfg, conf, c0, ts) == fed
  }

  lemma MakesSnoc(cfg: ProbeConfig, conf: Config, c0: Counters, ts: seq<Test>, c: Counters, fed: seq<Item>, t: Test)
    requires Makes(cfg, conf, c0, ts, c, fed)
    ensures var c' := Count(c, t.Judged(cfg)); Makes(cfg, conf, c0, ts + [t], c', fed + Items(conf, Feed(cfg, c', t)))
  {
    FedSnoc(cfg, conf, c0, ts, t);
  }

  /** Tests continue an account's view as they would start one from its counters. */
  lemma {:induction false} ProbesContinue(cfg: ProbeConfig, conf: Config, ss: seq<Step>, c0: Counters, told: seq<Item>,
                                          ts: seq<Test>)
    returns (c: Counters, fed: seq<Item>)
    requires Views(cfg, conf, ss, c0, told)
    ensures Makes(cfg, conf, c0, ts, c, fed) && Views(cfg, conf, ss + Probes(ts), c, told + fed)
  {
    if ts == [] {
      c, fed := c0, [];
      Unchanged(ss);
      Unchanged(told);
    } else {
      var front, t := ts[..|ts| - 1], ts[|ts| - 1];
      c, fed := ProbesContinue(cfg, conf, ss, c0, told, front);
      var c' := Count(c, t.Judged(cfg));
      MakesSnoc(cfg, conf, c0, front, c, fed, t);
      ViewsSnoc(cfg, conf, ss + Probes(front), c, told + fed, Probe(t));
      assert ts == front + [t] && ss + Probes(front) + [Probe(t)] == ss + Probes(ts);
      Reassociate(told, fed, Items(conf, Feed(cfg, c', t)));
      c, fed := c', fed + Items(conf, Feed(cfg, c', t));
    }
  }

  lemma Reassociate(a: seq<Item>, b: seq<Item>, c: seq<Item>)
    ensures a + b + c == a + (b + c)
  {
  }

  lemma {:induction false} ProjectConcat(a: seq<Call>, b: seq<Call>, id: int)
    ensures Project(a + b, id) == Project(a, id) + Project(b, id)
  {
    if b == [] {
      Unchanged(a);
      Unchanged(Project(a, id));
    } else {
      assert (a + b)[..|a + b| - 1] == a + b[..|b| - 1];
      ProjectConcat(a, b[..|b| - 1], id);
    }
  }

  /** An account's view of its counters and of what the tracker heard about it. */
  ghost predicate ViewedAs(counters: map<int, Counters>, h: seq<Call>, id: int, tally: Counters, told: seq<Item>) {
    At(counters, id) == tally && Project(h, id) == told
  }

  /** Whatever happens to other accounts, an account's counters and history are those of its
      own tests and departures. */
  lemma {:induction false} PassesAreSteps(cfg: ProbeConfig, conf: int -> Config, passes: seq<Pass>, id: int)
    ensures ViewedAs(CountersAfter(cfg, passes), HistoryAfter(cfg, conf, passes), id,
                     Tally(cfg, Steps(passes, id)), Told(cfg, conf(id), Steps(passes, id)))
  {
    if passes != [] {
      var front, p := passes[..|passes| - 1], passes[|passes| - 1];
      PassesAreSteps(cfg, conf, front, id);
      OnePass(cfg, conf, CountersAfter(cfg, front), HistoryAfter(cfg, conf, front), Steps(front, id), p, id);
    }
  }

  lemma OnePass(cfg: ProbeConfig, conf: int -> Config, m: map<int, Counters>, h: seq<Call>, ss: seq<Step>,
                p: Pass, id: int)
    requires ViewedAs(m, h, id, Tally(cfg, ss), Told(cfg, conf(id), ss))
    ensures ViewedAs(Kept(CountAll(cfg, m, p.tests, |p.tests|), p.live),
                     h + CallsAll(cfg, conf, m, p.tests, |p.tests|), id,
                     Tally(cfg, ss + StepsOf(p, id)), Told(cfg, conf(id), ss + StepsOf(p, id)))
  {
    var mine := TestsOf(p.tests, |p.tests|, id);
    CountersAreIndependent(cfg, m, p.tests, |p.tests|, id);
    ProbesAreIndependent(cfg, conf, m, p.tests, id);
    ProjectConcat(h, CallsAll(cfg, conf, m, p.tests, |p.tests|), id);
    var c, fed := ProbesContinue(cfg, conf(id), ss, At(m, id), Project(h, id), mine);
    LeaveLast(cfg, conf(id), ss, Probes(mine), id in p.live);
  }

  lemma LeaveLast(cfg: ProbeConfig, conf: Config, ss: seq<Step>, probes: seq<Step>, live: bool)
    ensures var all := ss + (probes + if live then [] else [Leave]);
      && Tally(cfg, all) == (if live then Tally(cfg, ss + probes) else NONE)
      && Told(cfg, conf, all) == Told(cfg, conf, ss + probes)
  {
    if live {
      Unchanged(probes);
    } else {
      assert ss + (probes + [Leave]) == ss + probes + [Leave];
      StepSnoc(cfg, conf, ss + probes, Leave);
      Unchanged(Told(cfg, conf, ss + probes));
    }
  }

  // -------------------------------------------------------- the two counts, by steps

  /** Consecutive reds at the end: a yellow, or a green that took too long, neither counts nor
      breaks the run, a pass out of the pool forgets it. */
  function RedRun(cfg: ProbeConfig, ss: seq<Step>): nat {
    if ss == [] then 0
    else
      var s, before := ss[|ss| - 1], RedRun(cfg, ss[..|ss| - 1]);
      if s.Leave? then 0
      else if s.t.status == Red then before + 1
      else if s.t.status == Green && s.t.latency <= cfg.slowThreshold then 0
      else before
  }

  /** Consecutive quick greens at the end. */
  function GreenRun(cfg: ProbeConfig, ss: seq<Step>): nat {
    if ss == [] then 0
    else
      var s, before := ss[|ss| - 1], GreenRun(cfg, ss[..|ss| - 1]);
      if s.Leave? || s.t.status == Red then 0
      else if s.t.status == Green && s.t.latency <= cfg.slowThreshold then before + 1
      else before
  }

  lemma {:induction false} TallyIsRuns(cfg: ProbeConfig, ss: seq<Step>)
    ensures Tally(cfg, ss) == Counters(RedRun(cfg, ss), GreenRun(cfg, ss))
    ensures RedRun(cfg, ss) > 0 ==> GreenRun(cfg, ss) == 0
  {
    if ss != [] {
      TallyIsRuns(cfg, ss[..|ss| - 1]);
    }
  }

  /** What one more test tells the breaker: a red that makes the run long enough is a failure
      with the probe's message, a quick green likewise a success, and nothing else tells it
      anything. */
  lemma ToldMeaning(cfg: ProbeConfig, conf: Config, ss: seq<Step>, t: Test)
    ensures Told(cfg, conf, ss + [Probe(t)]) == Told(cfg, conf, ss) +
      if t.status == Red && RedRun(cfg, ss) + 1 >= cfg.redThreshold
      then [Item(conf, Failure(t.at, "health probe: " + t.msg))]
      else if t.status == Green && t.latency <= cfg.slowThreshold && GreenRun(cfg, ss) + 1 >= cfg.greenThreshold
      then [Item(conf, Success(t.at))]
      else []
    ensures Told(cfg, conf, ss + [Leave]) == Told(cfg, conf, ss)
  {
    TallyIsRuns(cfg, ss);
    StepSnoc(cfg, conf, ss, Probe(t));
    StepSnoc(cfg, conf, ss, Leave);
    WhatIsFed(cfg, conf, Tally(cfg, ss), Probe(t));
    Unchanged(Told(cfg, conf, ss));
  }

  /** The account's breaker after its steps. */
  function Probed(cfg: ProbeConfig, conf: Config, id: int, ss: seq<Step>): Circuit {
    Fold(id, Told(cfg, conf, ss)).circuit
  }

  /** The failures a closed breaker should hold after a run of reds. */
  function Expected(cfg: ProbeConfig, reds: nat): nat {
    if reds < cfg.redThreshold then 0 else reds - cfg.redThreshold + 1
  }

  /** A closed breaker holds max(0, reds - redThreshold + 1) failures. */
  ghost predicate InStep(cfg: ProbeConfig, conf: Config, id: int, ss: seq<Step>) {
    Probed(cfg, conf, id, ss).state == Closed ==>
      Probed(cfg, conf, id, ss).failureCount == Expected(cfg, RedRun(cfg, ss))
  }

  /** Reds past the de-bounce are forgotten while the breaker, closed, keeps their failures:
      by a departure, or by a green that is not enough to be reported. */
  predicate Forgives(cfg: ProbeConfig, closed: bool, reds: nat, s: Step) {
    && closed && reds >= cfg.redThreshold
    && (s.Leave? || (s.t.Judged(cfg) == Green && cfg.greenThreshold >= 2))
  }

  lemma {:induction false} ToldHasOneConfig(cfg: ProbeConfig, conf: Config, ss: seq<Step>)
    requires !conf.Disabled()
    ensures FixedConfig(conf, Told(cfg, conf, ss))
  {
    if ss != [] {
      ToldHasOneConfig(cfg, conf, ss[..|ss| - 1]);
    }
  }

  lemma StreakSnoc(h: seq<Item>, e: Item)
    ensures FailStreak(h + [e]) ==
      if e.ev.Failure? then FailStreak(h) + 1 else if e.ev.Success? || e.ev.Reset? then 0 else FailStreak(h)
  {
    PrefixStreaks(h, e, |h|);
  }

  /** A history behind a breaker: whether it is closed, and its failure streak. */
  ghost predicate Left(conf: Config, id: int, h: seq<Item>, closed: bool, streak: nat) {
    FixedConfig(conf, h) && (Fold(id, h).circuit.state == Closed) == closed && FailStreak(h) == streak
  }

  /** The numbers behind InStep: those of the breaker and the prober's counters. */
  ghost predicate Stands(cfg: ProbeConfig, conf: Config, id: int, ss: seq<Step>,
                         closed: bool, streak: nat, c: Counters)
  {
    Left(conf, id, Told(cfg, conf, ss), closed, streak) && Tally(cfg, ss) == c
  }

  lemma ItStands(cfg: ProbeConfig, conf: Config, id: int, ss: seq<Step>)
    requires !conf.Disabled()
    ensures Stands(cfg, conf, id, ss, Probed(cfg, conf, id, ss).state == Closed,
                   FailStreak(Told(cfg, conf, ss)), Tally(cfg, ss))
  {
    ToldHasOneConfig(cfg, conf, ss);
  }

  lemma StandsMeaning(cfg: ProbeConfig, conf: Config, id: int, ss: seq<Step>, closed: bool, streak: nat, c: Counters)
    requires Stands(cfg, conf, id, ss, closed, streak, c) && !conf.Disabled()
    ensures InStep(cfg, conf, id, ss) <==> (closed ==> streak == Expected(cfg, c.reds))
    ensures c.reds > 0 ==> c.greens == 0
    ensures closed ==> streak < conf.failureThreshold
    ensures RedRun(cfg, ss) == c.reds
  {
    ToldHasOneConfig(cfg, conf, ss);
    BreakerMeaning(conf, id, Told(cfg, conf, ss));
    TallyIsRuns(cfg, ss);
  }

  /** One more failure told to the breaker. */
  lemma HearFailure(conf: Config, id: int, h: seq<Item>, closed: bool, streak: nat, e: Item)
    requires Left(conf, id, h, closed, streak) && e.cfg == conf && e.ev.Failure?
    ensures Left(conf, id, h + [e], closed && streak + 1 != conf.failureThreshold, streak + 1)
  {
    BreakerMeaning(conf, id, h);
    Snoc(id, h, e);
    StreakSnoc(h, e);
  }

  /** One more success. */
  lemma HearSuccess(conf: Config, id: int, h: seq<Item>, closed: bool, streak: nat, e: Item)
    requires Left(conf, id, h, closed, streak) && e.cfg == conf && e.ev.Success?
    ensures closed ==> Left(conf, id, h + [e], true, 0)
    ensures exists closed' :: Left(conf, id, h + [e], closed', 0)
  {
    BreakerMeaning(conf, id, h);
    Snoc(id, h, e);
    StreakSnoc(h, e);
    assert Left(conf, id, h + [e], Fold(id, h + [e]).circuit.state == Closed, 0);
  }

  /** Whether a step is reported to the breaker, and how. */
  predicate Succeeds(cfg: ProbeConfig, c: Counters, s: Step) {
    s.Probe? && s.t.Judged(cfg) == Green && c.greens + 1 >= cfg.greenThreshold
  }

  predicate Fails(cfg: ProbeConfig, c: Counters, s: Step) {
    s.Probe? && s.t.Judged(cfg) == Red && c.reds + 1 >= cfg.redThreshold
  }

  lemma WhatIsFed(cfg: ProbeConfig, conf: Config, c: Counters, s: Step)
    ensures Items(conf, FeedStep(cfg, CountStep(cfg, c, s), s)) ==
      if Fails(cfg, c, s) then [Item(conf, s.t.Reported())]
      else if Succeeds(cfg, c, s) then [Item(conf, Success(s.t.at))] else []
  {
  }

  lemma TellStands(cfg: ProbeConfig, conf: Config, id: int, ss: seq<Step>, c: Counters, told: seq<Item>,
                   closed: bool, streak: nat)
    requires Views(cfg, conf, ss, c, told) && Left(conf, id, told, closed, streak)
    ensures Stands(cfg, conf, id, ss, closed, streak, c)
  {
  }

  /** One more step, in those numbers. */
  lemma StandsSnoc(cfg: ProbeConfig, conf: Config, id: int, ss: seq<Step>,
                   closed: bool, streak: nat, c: Counters, s: Step)
    requires Stands(cfg, conf, id, ss, closed, streak, c)
    ensures !Succeeds(cfg, c, s) && !Fails(cfg, c, s) ==>
      Stands(cfg, conf, id, ss + [s], closed, streak, CountStep(cfg, c, s))
    ensures Fails(cfg, c, s) ==>
      Stands(cfg, conf, id, ss + [s], closed && streak + 1 != conf.failureThreshold, streak + 1, CountStep(cfg, c, s))
    ensures Succeeds(cfg, c, s) && closed ==> Stands(cfg, conf, id, ss + [s], true, 0, CountStep(cfg, c, s))
    ensures Succeeds(cfg, c, s) ==> exists closed' :: Stands(cfg, conf, id, ss + [s], closed', 0, CountStep(cfg, c, s))
  {
    var h, c' := Told(cfg, conf, ss), CountStep(cfg, c, s);
    ViewsSnoc(cfg, conf, ss, c, h, s);
    WhatIsFed(cfg, conf, c, s);
    if Fails(cfg, c, s) {
      var e := Item(conf, s.t.Reported());
      HearFailure(conf, id, h, closed, streak, e);
      TellStands(cfg, conf, id, ss + [s], c', h + [e], closed && streak + 1 != conf.failureThreshold, streak + 1);
    } else if Succeeds(cfg, c, s) {
      var e := Item(conf, Success(s.t.at));
      HearSuccess(conf, id, h, closed, streak, e);
      var closed' :| Left(conf, id, h + [e], closed', 0) && (closed ==> closed');
      TellStands(cfg, conf, id, ss + [s], c', h + [e], closed', 0);
    } else {
      Unchanged(h);
      TellStands(cfg, conf, id, ss + [s], c', h, closed, streak);
    }
  }

  /** From in step, one more step stays in step exactly when it does not forgive. */
  lemma StaysInStepIff(cfg: ProbeConfig, conf: Config, id: int, ss: seq<Step>, s: Step)
    requires cfg.Usable() && !conf.Disabled() && InStep(cfg, conf, id, ss)
    ensures InStep(cfg, conf, id, ss + [s]) <==>
      !Forgives(cfg, Probed(cfg, conf, id, ss).state == Closed, RedRun(cfg, ss), s)
  {
    var closed, streak := Probed(cfg, conf, id, ss).state == Closed, FailStreak(Told(cfg, conf, ss));
    var c := Tally(cfg, ss);
    ItStands(cfg, conf, id, ss);
    StandsMeaning(cfg, conf, id, ss, closed, streak, c);
    StandsSnoc(cfg, conf, id, ss, closed, streak, c, s);
    var closed', streak' :| Stands(cfg, conf, id, ss + [s], closed', streak', CountStep(cfg, c, s));
    StandsMeaning(cfg, conf, id, ss + [s], closed', streak', CountStep(cfg, c, s));
  }

  lemma EmptyStands(cfg: ProbeConfig, conf: Config, id: int)
    requires cfg.Usable() && !conf.Disabled()
    ensures Stands(cfg, conf, id, [], true, 0, NONE) && InStep(cfg, conf, id, [])
  {
  }

  /** From in step, a probe opens a closed breaker exactly when it is red number
      redThreshold + failureThreshold - 1 in a row. */
  lemma OpensOnTime(cfg: ProbeConfig, conf: Config, id: int, ss: seq<Step>, s: Step)
    requires cfg.Usable() && !conf.Disabled() && InStep(cfg, conf, id, ss)
    requires Probed(cfg, conf, id, ss).state == Closed
    ensures Probed(cfg, conf, id, ss + [s]).state != Closed <==> OpeningStep(cfg, conf, RedRun(cfg, ss), s)
  {
    var streak, c := FailStreak(Told(cfg, conf, ss)), Tally(cfg, ss);
    ItStands(cfg, conf, id, ss);
    StandsMeaning(cfg, conf, id, ss, true, streak, c);
    StandsSnoc(cfg, conf, id, ss, true, streak, c, s);
  }

  function OpeningRed(cfg: ProbeConfig, conf: Config): int { cfg.redThreshold + conf.failureThreshold - 1 }

  predicate OpeningStep(cfg: ProbeConfig, conf: Config, reds: nat, s: Step) {
    s.Probe? && s.t.Judged(cfg) == Red && reds + 1 == OpeningRed(cfg, conf)
  }

  // -------------------------------------------------------------------- over passes

  /** Each pass tests accounts in its pool, and each at most once. */
  ghost predicate Proper(passes: seq<Pass>) {
    forall i :: 0 <= i < |passes| ==> ProperPass(passes[i])
  }

  ghost predicate ProperPass(p: Pass) {
    && (forall i :: 0 <= i < |p.tests| ==> p.tests[i].id in p.live)
    && (forall i, j :: 0 <= i < j < |p.tests| ==> p.tests[i].id != p.tests[j].id)
  }

  ghost predicate Stays(passes: seq<Pass>, id: int) {
    forall i :: 0 <= i < |passes| ==> id in passes[i].live
  }

  /** What the tracker has about an account after the passes. */
  function BreakerAfter(cfg: ProbeConfig, conf: int -> Config, id: int, passes: seq<Pass>): Circuit {
    Fold(id, Project(HistoryAfter(cfg, conf, passes), id)).circuit
  }

  /** What the prober has. */
  function RedsAfter(cfg: ProbeConfig, id: int, passes: seq<Pass>): nat { At(CountersAfter(cfg, passes), id).reds }

  /** Closed, the breaker holds max(0, reds - redThreshold + 1) failures. */
  ghost predicate Composes(cfg: ProbeConfig, conf: int -> Config, id: int, passes: seq<Pass>) {
    BreakerAfter(cfg, conf, id, passes).state == Closed ==>
      BreakerAfter(cfg, conf, id, passes).failureCount == Expected(cfg, RedsAfter(cfg, id, passes))
  }

  /** After every pass of the run. */
  ghost predicate ComposesThroughout(cfg: ProbeConfig, conf: int -> Config, id: int, passes: seq<Pass>) {
    && Composes(cfg, conf, id, passes)
    && (passes != [] ==> ComposesThroughout(cfg, conf, id, passes[..|passes| - 1]))
  }

  /** The pass forgets reds past the de-bounce while the breaker is closed: the account is not
      in the pool, or gets a green that is not enough to be reported. */
  ghost predicate PassForgives(cfg: ProbeConfig, conf: int -> Config, id: int, before: seq<Pass>, p: Pass) {
    && BreakerAfter(cfg, conf, id, before).state == Closed && RedsAfter(cfg, id, before) >= cfg.redThreshold
    && (id !in p.live
        || (cfg.greenThreshold >= 2 && exists i :: 0 <= i < |p.tests| && GreenFor(cfg, p.tests[i], id)))
  }

  predicate GreenFor(cfg: ProbeConfig, t: Test, id: int) {
    t.id == id && t.status == Green && t.latency <= cfg.slowThreshold
  }

  ghost predicate NoPassForgives(cfg: ProbeConfig, conf: int -> Config, id: int, passes: seq<Pass>) {
    passes != [] ==>
      && NoPassForgives(cfg, conf, id, passes[..|passes| - 1])
      && !PassForgives(cfg, conf, id, passes[..|passes| - 1], passes[|passes| - 1])
  }

  /** The one step, or none, that a proper pass is to an account. */
  ghost predicate PassIs(p: Pass, id: int, ss: seq<Step>) {
    && (id !in p.live ==> ss == [Leave])
    && (forall i :: 0 <= i < |p.tests| && p.tests[i].id == id ==> ss == [Probe(p.tests[i])])
    && (id in p.live && (forall i :: 0 <= i < |p.tests| ==> p.tests[i].id != id) ==> ss == [])
  }

  lemma {:induction false} TestsOfOne(tests: seq<Test>, n: nat, id: int)
    requires n <= |tests| && forall i, j :: 0 <= i < j < |tests| ==> tests[i].id != tests[j].id
    ensures forall i :: 0 <= i < n && tests[i].id == id ==> TestsOf(tests, n, id) == [tests[i]]
    ensures (forall i :: 0 <= i < n ==> tests[i].id != id) ==> TestsOf(tests, n, id) == []
  {
    if n > 0 {
      TestsOfOne(tests, n - 1, id);
      Unchanged(TestsOf(tests, n - 1, id));
    }
  }

  lemma ProperPassIsOneStep(p: Pass, id: int)
    requires ProperPass(p)
    ensures PassIs(p, id, StepsOf(p, id))
  {
    TestsOfOne(p.tests, |p.tests|, id);
    if i :| 0 <= i < |p.tests| && p.tests[i].id == id {
      var t := p.tests[i];
      assert [t][..0] == [];
      assert Probes([t]) == [Probe(t)] && Probes([t]) + [] == [Probe(t)];
    }
  }

  /** Pass by pass and step by step are the same for a proper pass. */
  lemma PassStaysIff(cfg: ProbeConfig, conf: int -> Config, id: int, passes: seq<Pass>, p: Pass)
    requires cfg.Usable() && !conf(id).Disabled() && ProperPass(p) && Composes(cfg, conf, id, passes)
    ensures Composes(cfg, conf, id, passes + [p]) <==> !PassForgives(cfg, conf, id, passes, p)
  {
    var ss, one := Steps(passes, id), StepsOf(p, id);
    PassesInSteps(cfg, conf, id, passes);
    PassesInSteps(cfg, conf, id, passes + [p]);
    StepsSnoc(passes, p, id);
    ProperPassIsOneStep(p, id);
    if one == [] {
      Unchanged(ss);
      assert forall i :: 0 <= i < |p.tests| ==> !GreenFor(cfg, p.tests[i], id);
    } else {
      assert one == [one[0]];
      StaysInStepIff(cfg, conf(id), id, ss, one[0]);
    }
  }

  lemma StepsSnoc(passes: seq<Pass>, p: Pass, id: int)
    ensures Steps(passes + [p], id) == Steps(passes, id) + StepsOf(p, id)
  {
    assert (passes + [p])[..|passes|] == passes;
  }

  /** Composing after the passes is being in step after the account's steps. */
  lemma PassesInSteps(cfg: ProbeConfig, conf: int -> Config, id: int, passes: seq<Pass>)
    ensures BreakerAfter(cfg, conf, id, passes) == Probed(cfg, conf(id), id, Steps(passes, id))
    ensures RedsAfter(cfg, id, passes) == RedRun(cfg, Steps(passes, id))
    ensures Composes(cfg, conf, id, passes) <==> InStep(cfg, conf(id), id, Steps(passes, id))
  {
    PassesAreSteps(cfg, conf, passes, id);
    TallyIsRuns(cfg, Steps(passes, id));
  }

  lemma ProperFront(passes: seq<Pass>)
    requires Proper(passes) && passes != []
    ensures Proper(passes[..|passes| - 1]) && ProperPass(passes[|passes| - 1])
  {
  }

  lemma ProperSnoc(passes: seq<Pass>, p: Pass, id: int)
    requires Proper(passes) && ProperPass(p)
    ensures Proper(passes + [p]) && (Stays(passes, id) && id in p.live ==> Stays(passes + [p], id))
  {
  }

  lemma PassesSnoc(cfg: ProbeConfig, conf: int -> Config, id: int, passes: seq<Pass>, p: Pass)
    ensures ComposesThroughout(cfg, conf, id, passes + [p]) <==>
      Composes(cfg, conf, id, passes + [p]) && ComposesThroughout(cfg, conf, id, passes)
    ensures NoPassForgives(cfg, conf, id, passes + [p]) <==>
      NoPassForgives(cfg, conf, id, passes) && !PassForgives(cfg, conf, id, passes, p)
    ensures ComposesThroughout(cfg, conf, id, passes) ==> Composes(cfg, conf, id, passes)
  {
    assert (passes + [p])[..|passes|] == passes;
  }

  lemma ComposesAtFirst(cfg: ProbeConfig, conf: int -> Config, id: int)
    requires cfg.Usable() && !conf(id).Disabled()
    ensures ComposesThroughout(cfg, conf, id, []) && NoPassForgives(cfg, conf, id, [])
  {
    PassesInSteps(cfg, conf, id, []);
    EmptyStands(cfg, conf(id), id);
  }

  /** For every run: the counts compose after every pass if and only if no pass forgives. */
  lemma {:induction false} ComposesIff(cfg: ProbeConfig, conf: int -> Config, id: int, passes: seq<Pass>)
    requires cfg.Usable() && !conf(id).Disabled() && Proper(passes)
    ensures ComposesThroughout(cfg, conf, id, passes) <==> NoPassForgives(cfg, conf, id, passes)
  {
    if passes == [] {
      ComposesAtFirst(cfg, conf, id);
    } else {
      var front, p := passes[..|passes| - 1], passes[|passes| - 1];
      assert passes == front + [p];
      ProperFront(passes);
      ComposesIff(cfg, conf, id, front);
      OneMoreComposes(cfg, conf, id, front, p);
    }
  }

  lemma OneMoreComposes(cfg: ProbeConfig, conf: int -> Config, id: int, passes: seq<Pass>, p: Pass)
    requires cfg.Usable() && !conf(id).Disabled() && ProperPass(p)
    requires ComposesThroughout(cfg, conf, id, passes) <==> NoPassForgives(cfg, conf, id, passes)
    ensures ComposesThroughout(cfg, conf, id, passes + [p]) <==> NoPassForgives(cfg, conf, id, passes + [p])
  {
    PassesSnoc(cfg, conf, id, passes, p);
    if Composes(cfg, conf, id, passes) {
      PassStaysIff(cfg, conf, id, passes, p);
    }
  }

  /** A run in which no pass forgives opens the breaker on schedule: from closed, exactly by a
      red that is number redThreshold + failureThreshold - 1 in a row. */
  lemma ProbesOpenExactly(cfg: ProbeConfig, conf: int -> Config, id: int, passes: seq<Pass>, p: Pass)
    requires cfg.Usable() && !conf(id).Disabled() && Proper(passes) && ProperPass(p)
    requires NoPassForgives(cfg, conf, id, passes) && BreakerAfter(cfg, conf, id, passes).state == Closed
    ensures BreakerAfter(cfg, conf, id, passes + [p]).state != Closed <==>
      && RedsAfter(cfg, id, passes) + 1 == OpeningRed(cfg, conf(id))
      && exists i :: 0 <= i < |p.tests| && RedFor(p.tests[i], id)
  {
    ComposesIff(cfg, conf, id, passes);
    PassesInSteps(cfg, conf, id, passes);
    PassesInSteps(cfg, conf, id, passes + [p]);
    StepsSnoc(passes, p, id);
    PassOpensOnTime(cfg, conf(id), id, Steps(passes, id), p);
  }

  lemma PassOpensOnTime(cfg: ProbeConfig, conf: Config, id: int, ss: seq<Step>, p: Pass)
    requires cfg.Usable() && !conf.Disabled() && ProperPass(p)
    requires InStep(cfg, conf, id, ss) && Probed(cfg, conf, id, ss).state == Closed
    ensures Probed(cfg, conf, id, ss + StepsOf(p, id)).state != Closed <==>
      RedRun(cfg, ss) + 1 == OpeningRed(cfg, conf) && exists i :: 0 <= i < |p.tests| && RedFor(p.tests[i], id)
  {
    var one := StepsOf(p, id);
    ProperPassIsOneStep(p, id);
    if one == [] {
      Unchanged(ss);
      assert forall i :: 0 <= i < |p.tests| ==> !RedFor(p.tests[i], id);
    } else {
      assert one == [one[0]];
      OpensOnTime(cfg, conf, id, ss, one[0]);
    }
  }

  predicate RedFor(t: Test, id: int) { t.id == id && t.status == Red }

  // ------------------------------------------------------------ for which thresholds

  /** With a breaker threshold of 1 no pass can forgive: closed, the reds are below the
      de-bounce. */
  lemma ClosedIsDebounced(cfg: ProbeConfig, conf: int -> Config, id: int, passes: seq<Pass>)
    requires cfg.Usable() && conf(id).failureThreshold == 1 && Composes(cfg, conf, id, passes)
    requires BreakerAfter(cfg, conf, id, passes).state == Closed
    ensures RedsAfter(cfg, id, passes) < cfg.redThreshold
  {
    var ss := Steps(passes, id);
    PassesInSteps(cfg, conf, id, passes);
    ItStands(cfg, conf(id), id, ss);
    StandsMeaning(cfg, conf(id), id, ss, true, FailStreak(Told(cfg, conf(id), ss)), Tally(cfg, ss));
  }

  /** No pass forgives when the breaker opens at one failure, or when one green is enough and
      the account stays. */
  lemma {:induction false} NothingForgives(cfg: ProbeConfig, conf: int -> Config, id: int, passes: seq<Pass>)
    requires cfg.Usable() && !conf(id).Disabled() && Proper(passes)
    requires conf(id).failureThreshold == 1 || (cfg.greenThreshold == 1 && Stays(passes, id))
    ensures NoPassForgives(cfg, conf, id, passes) && ComposesThroughout(cfg, conf, id, passes)
  {
    ComposesIff(cfg, conf, id, passes);
    if passes != [] {
      var front, p := passes[..|passes| - 1], passes[|passes| - 1];
      NothingForgives(cfg, conf, id, front);
      assert Stays(passes, id) ==> id in p.live;
      if conf(id).failureThreshold == 1 && BreakerAfter(cfg, conf, id, front).state == Closed {
        ClosedIsDebounced(cfg, conf, id, front);
      }
    }
  }

  /** One test of the account, or one pass without it. */
  function PassFor(s: Step, id: int): Pass { if s.Leave? then Pass([], {}) else Pass([s.t], {id}) }

  lemma PassForIsStep(s: Step, id: int)
    requires s.Probe? ==> s.t.id == id
    ensures ProperPass(PassFor(s, id)) && StepsOf(PassFor(s, id), id) == [s]
  {
    var p := PassFor(s, id);
    ProperPassIsOneStep(p, id);
    if s.Probe? {
      assert p.tests[0].id == id;
    }
  }

  /** k reds in a row for a breaker that needs two failures: closed, up to the first report. */
  lemma RedsInARow(cfg: ProbeConfig, conf: int -> Config, id: int, red: Test) returns (passes: seq<Pass>)
    requires cfg.Usable() && conf(id).failureThreshold >= 2 && red.id == id && red.Judged(cfg) == Red
    ensures Proper(passes) && Stays(passes, id)
    ensures Stands(cfg, conf(id), id, Steps(passes, id), true, 1, Counters(cfg.redThreshold, 0))
  {
    passes := [];
    var k := 0;
    EmptyStands(cfg, conf(id), id);
    while k < cfg.redThreshold
      invariant 0 <= k <= cfg.redThreshold && OnlyReds(cfg, conf, id, passes, k)
    {
      passes := OneMoreRed(cfg, conf, id, passes, red, k);
      k := k + 1;
    }
  }

  /** After k reds, up to the first report. */
  ghost predicate OnlyReds(cfg: ProbeConfig, conf: int -> Config, id: int, passes: seq<Pass>, k: nat) {
    && Proper(passes) && Stays(passes, id)
    && Stands(cfg, conf(id), id, Steps(passes, id), true, Expected(cfg, k), Counters(k, 0))
  }

  lemma OneMoreRed(cfg: ProbeConfig, conf: int -> Config, id: int, passes: seq<Pass>, red: Test, k: nat)
    returns (more: seq<Pass>)
    requires cfg.Usable() && conf(id).failureThreshold >= 2 && red.id == id && red.Judged(cfg) == Red
    requires k < cfg.redThreshold && OnlyReds(cfg, conf, id, passes, k)
    ensures OnlyReds(cfg, conf, id, more, k + 1)
  {
    var p := PassFor(Probe(red), id);
    PassForIsStep(Probe(red), id);
    StepsSnoc(passes, p, id);
    ProperSnoc(passes, p, id);
    StandsSnoc(cfg, conf(id), id, Steps(passes, id), true, Expected(cfg, k), Counters(k, 0), Probe(red));
    more := passes + [p];
  }

  /** A step that forgives after those reds, and the state it leaves: one failure, no reds. */
  lemma Forgiven(cfg: ProbeConfig, conf: int -> Config, id: int, red: Test, s: Step) returns (passes: seq<Pass>)
    requires cfg.Usable() && conf(id).failureThreshold >= 2 && red.id == id && red.Judged(cfg) == Red
    requires s.Leave? || (s.t.id == id && s.t.Judged(cfg) == Green && cfg.greenThreshold >= 2)
    ensures Proper(passes) && (s.Probe? ==> Stays(passes, id)) && !Composes(cfg, conf, id, passes)
    ensures exists greens :: Stands(cfg, conf(id), id, Steps(passes, id), true, 1, Counters(0, greens))
  {
    var reds := RedsInARow(cfg, conf, id, red);
    PassForIsStep(s, id);
    StepsSnoc(reds, PassFor(s, id), id);
    ProperSnoc(reds, PassFor(s, id), id);
    StandsSnoc(cfg, conf(id), id, Steps(reds, id), true, 1, Counters(cfg.redThreshold, 0), s);
    passes := reds + [PassFor(s, id)];
    var c := CountStep(cfg, Counters(cfg.redThreshold, 0), s);
    assert Stands(cfg, conf(id), id, Steps(passes, id), true, 1, Counters(0, c.greens));
    StandsMeaning(cfg, conf(id), id, Steps(passes, id), true, 1, c);
    PassesInSteps(cfg, conf, id, passes);
  }

  ghost predicate StayingRunsCompose(cfg: ProbeConfig, conf: int -> Config, id: int) {
    forall passes :: Proper(passes) && Stays(passes, id) ==> ComposesThroughout(cfg, conf, id, passes)
  }

  ghost predicate AllRunsCompose(cfg: ProbeConfig, conf: int -> Config, id: int) {
    forall passes :: Proper(passes) ==> ComposesThroughout(cfg, conf, id, passes)
  }

  /** While the account stays in the pool, every run composes exactly when one of the
      thresholds is 1. */
  lemma StayingRunsComposeIff(cfg: ProbeConfig, conf: int -> Config, id: int)
    requires cfg.Usable() && !conf(id).Disabled()
    ensures StayingRunsCompose(cfg, conf, id) <==> cfg.greenThreshold == 1 || conf(id).failureThreshold == 1
  {
    if cfg.greenThreshold == 1 || conf(id).failureThreshold == 1 {
      forall passes | Proper(passes) && Stays(passes, id) ensures ComposesThroughout(cfg, conf, id, passes) {
        NothingForgives(cfg, conf, id, passes);
      }
    } else {
      var passes := Forgiven(cfg, conf, id, Test(id, Red, 0, "down", 1), Probe(Test(id, Green, 0, "", 2)));
      assert !ComposesThroughout(cfg, conf, id, passes);
    }
  }

  /** If it may leave, every run composes exactly when the breaker opens at one failure. */
  lemma AllRunsComposeIff(cfg: ProbeConfig, conf: int -> Config, id: int)
    requires cfg.Usable() && !conf(id).Disabled()
    ensures AllRunsCompose(cfg, conf, id) <==> conf(id).failureThreshold == 1
  {
    if conf(id).failureThreshold == 1 {
      forall passes | Proper(passes) ensures ComposesThroughout(cfg, conf, id, passes) {
        NothingForgives(cfg, conf, id, passes);
      }
    } else {
      var passes := Forgiven(cfg, conf, id, Test(id, Red, 0, "down", 1), Leave);
      assert !ComposesThroughout(cfg, conf, id, passes);
    }
  }

  // ------------------------------------------------------------------ on schedule

  /** A pass after these opens a closed breaker exactly by the scheduled red. */
  ghost predicate OnTime(cfg: ProbeConfig, conf: int -> Config, id: int, passes: seq<Pass>, p: Pass) {
    BreakerAfter(cfg, conf, id, passes).state == Closed ==>
      (BreakerAfter(cfg, conf, id, passes + [p]).state != Closed <==>
        && RedsAfter(cfg, id, passes) + 1 == OpeningRed(cfg, conf(id))
        && exists i :: 0 <= i < |p.tests| && RedFor(p.tests[i], id))
  }

  ghost predicate StayingRunsOnTime(cfg: ProbeConfig, conf: int -> Config, id: int) {
    forall passes, p :: Proper(passes) && Stays(passes, id) && ProperPass(p) ==> OnTime(cfg, conf, id, passes, p)
  }

  ghost predicate AllRunsOnTime(cfg: ProbeConfig, conf: int -> Config, id: int) {
    forall passes, p :: Proper(passes) && ProperPass(p) ==> OnTime(cfg, conf, id, passes, p)
  }

  lemma OnTimeUnlessForgiven(cfg: ProbeConfig, conf: int -> Config, id: int, passes: seq<Pass>, p: Pass)
    requires cfg.Usable() && !conf(id).Disabled() && Proper(passes) && ProperPass(p)
    requires NoPassForgives(cfg, conf, id, passes)
    ensures OnTime(cfg, conf, id, passes, p)
  {
    if BreakerAfter(cfg, conf, id, passes).state == Closed {
      ProbesOpenExactly(cfg, conf, id, passes, p);
    }
  }

  /** k reds after a forgiven failure. */
  ghost predicate HalfWay(cfg: ProbeConfig, conf: int -> Config, id: int, passes: seq<Pass>, k: nat, greens: nat) {
    && Proper(passes)
    && Stands(cfg, conf(id), id, Steps(passes, id), true, 1 + Expected(cfg, k), Counters(k, greens))
  }

  /** One more red then, which opens the breaker or not. */
  lemma HalfWayRed(cfg: ProbeConfig, conf: int -> Config, id: int, passes: seq<Pass>, red: Test, k: nat, greens: nat)
    requires cfg.Usable() && conf(id).failureThreshold >= 2 && red.id == id && red.Judged(cfg) == Red
    requires HalfWay(cfg, conf, id, passes, k, greens)
    ensures var more := passes + [PassFor(Probe(red), id)];
      && Proper(more) && (Stays(passes, id) ==> Stays(more, id))
      && (k <= OpeningRed(cfg, conf(id)) - 2 ==>
            Stands(cfg, conf(id), id, Steps(more, id), k < OpeningRed(cfg, conf(id)) - 2,
                   1 + Expected(cfg, k + 1), Counters(k + 1, 0)))
  {
    var p := PassFor(Probe(red), id);
    PassForIsStep(Probe(red), id);
    StepsSnoc(passes, p, id);
    ProperSnoc(passes, p, id);
    StandsSnoc(cfg, conf(id), id, Steps(passes, id), true, 1 + Expected(cfg, k), Counters(k, greens), Probe(red));
  }

  /** The last of them opens it with one red less than scheduled. */
  lemma OpensHalfWay(cfg: ProbeConfig, conf: int -> Config, id: int, passes: seq<Pass>, red: Test, k: nat, greens: nat)
    requires cfg.Usable() && conf(id).failureThreshold >= 2 && red.id == id && red.Judged(cfg) == Red
    requires HalfWay(cfg, conf, id, passes, k, greens) && k == OpeningRed(cfg, conf(id)) - 2
    ensures !OnTime(cfg, conf, id, passes, PassFor(Probe(red), id))
  {
    var p := PassFor(Probe(red), id);
    HalfWayRed(cfg, conf, id, passes, red, k, greens);
    PassesInSteps(cfg, conf, id, passes);
    PassesInSteps(cfg, conf, id, passes + [p]);
    TallyIsRuns(cfg, Steps(passes, id));
  }

  /** After a forgiven failure the breaker opens one red early. */
  lemma OpensEarly(cfg: ProbeConfig, conf: int -> Config, id: int, red: Test, s: Step)
    returns (passes: seq<Pass>, p: Pass)
    requires cfg.Usable() && conf(id).failureThreshold >= 2 && red.id == id && red.Judged(cfg) == Red
    requires s.Leave? || (s.t.id == id && s.t.Judged(cfg) == Green && cfg.greenThreshold >= 2)
    ensures Proper(passes) && ProperPass(p) && (s.Probe? ==> Stays(passes, id))
    ensures !OnTime(cfg, conf, id, passes, p)
  {
    passes := Forgiven(cfg, conf, id, red, s);
    p := PassFor(Probe(red), id);
    PassForIsStep(Probe(red), id);
    var k, greens: nat := 0, 0;
    greens :| Stands(cfg, conf(id), id, Steps(passes, id), true, 1, Counters(0, greens));
    while k < OpeningRed(cfg, conf(id)) - 2
      invariant 0 <= k <= OpeningRed(cfg, conf(id)) - 2 && HalfWay(cfg, conf, id, passes, k, greens)
      invariant s.Probe? ==> Stays(passes, id)
    {
      HalfWayRed(cfg, conf, id, passes, red, k, greens);
      passes, k, greens := passes + [p], k + 1, 0;
    }
    OpensHalfWay(cfg, conf, id, passes, red, k, greens);
  }

  /** While the account stays, every run opens the breaker on schedule exactly when one of the
      thresholds is 1. */
  lemma StayingRunsOnTimeIff(cfg: ProbeConfig, conf: int -> Config, id: int)
    requires cfg.Usable() && !conf(id).Disabled()
    ensures StayingRunsOnTime(cfg, conf, id) <==> cfg.greenThreshold == 1 || conf(id).failureThreshold == 1
  {
    if cfg.greenThreshold == 1 || conf(id).failureThreshold == 1 {
      forall passes, p | Proper(passes) && Stays(passes, id) && ProperPass(p) ensures OnTime(cfg, conf, id, passes, p) {
        NothingForgives(cfg, conf, id, passes);
        OnTimeUnlessForgiven(cfg, conf, id, passes, p);
      }
    } else {
      var passes, p := OpensEarly(cfg, conf, id, Test(id, Red, 0, "down", 1), Probe(Test(id, Green, 0, "", 2)));
    }
  }

  /** If it may leave, exactly when the breaker opens at one failure. */
  lemma AllRunsOnTimeIff(cfg: ProbeConfig, conf: int -> Config, id: int)
    requires cfg.Usable() && !conf(id).Disabled()
    ensures AllRunsOnTime(cfg, conf, id) <==> conf(id).failureThreshold == 1
  {
    if conf(id).failureThreshold == 1 {
      forall passes, p | Proper(passes) && ProperPass(p) ensures OnTime(cfg, conf, id, passes, p) {
        NothingForgives(cfg, conf, id, passes);
        OnTimeUnlessForgiven(cfg, conf, id, passes, p);
      }
    } else {
      var passes, p := OpensEarly(cfg, conf, id, Test(id, Red, 0, "down", 1), Leave);
    }
  }

  /** One red, reported at once, then a pass with the account disabled: the prober has
      forgotten, the breaker has not. */
  lemma DepartureForgets(cfg: ProbeConfig, conf: int -> Config, id: int, red: Test)
    requires cfg.Usable() && cfg.redThreshold == 1 && conf(id).failureThreshold >= 2
    requires red.id == id && red.status == Red
    ensures var passes := [Pass([red], {id}), Pass([], {})];
      && Proper(passes) && RedsAfter(cfg, id, passes) == 0
      && BreakerAfter(cfg, conf, id, passes).state == Closed && BreakerAfter(cfg, conf, id, passes).failureCount == 1
  {
    var one, two := Probe(red), Leave;
    var p1, p2 := PassFor(one, id), PassFor(two, id);
    PassForIsStep(one, id);
    PassForIsStep(two, id);
    TwoPasses(cfg, conf, id, p1, p2, red);
    assert [p1, p2] == [p1] + [p2];
  }

  lemma TwoPasses(cfg: ProbeConfig, conf: int -> Config, id: int, p1: Pass, p2: Pass, red: Test)
    requires cfg.Usable() && cfg.redThreshold == 1 && conf(id).failureThreshold >= 2
    requires red.id == id && red.Judged(cfg) == Red
    requires StepsOf(p1, id) == [Probe(red)] && StepsOf(p2, id) == [Leave]
    ensures var passes := [p1] + [p2];
      && RedsAfter(cfg, id, passes) == 0
      && BreakerAfter(cfg, conf, id, passes).state == Closed && BreakerAfter(cfg, conf, id, passes).failureCount == 1
  {
    var none: seq<Pass> := [];
    var c := conf(id);
    StepsSnoc(none, p1, id);
    StepsSnoc([p1], p2, id);
    assert none + [p1] == [p1] && Steps(none, id) == [];
    EmptyStands(cfg, c, id);
    StandsSnoc(cfg, c, id, [], true, 0, NONE, Probe(red));
    StandsSnoc(cfg, c, id, [] + [Probe(red)], true, 1, Counters(1, 0), Leave);
    PassesInSteps(cfg, conf, id, [p1] + [p2]);
    var ss := Steps([p1] + [p2], id);
    StandsMeaning(cfg, c, id, ss, true, 1, NONE);
    ToldHasOneConfig(cfg, c, ss);
    BreakerMeaning(c, id, Told(cfg, c, ss));
  }
}
