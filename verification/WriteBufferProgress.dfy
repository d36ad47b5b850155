/** Left to itself the write buffer comes to rest, and at rest it is empty: every step that
    needs no call from outside lowers a measure while the sink accepts, and as long as a
    record waits some such step is enabled. */
module WriteBufferProgress {
  import opened Common
  import opened WriteBuffer
  import opened WriteBufferRuns

  /** No call from outside: only timers and started goroutines move, and the sink accepts. */
  predicate OnItsOwn(a: Action) { a.Expire? || (a.Advance? && a.sinkOk) }

  ghost predicate Empty(s: State) { s.pending == [] && s.InFlight() == [] }

  /** Steps that a goroutine may still take, with what it may leave to others: a queued
      record weighs 2, an armed timer 5. */
  function Weight(pc: Pc): nat {
    match pc
    case Enqueueing(_) => 9
    case Appended(_) => 6
    case TimerFired => 4
    case FlushQueued(c) => LoopWeight(c) + 2
    case Clearing(c) => LoopWeight(c) + 1
    case Looping(c) => LoopWeight(c)
    case Writing(c, _) => LoopWeight(c) + 1
    case Failed(c, batch) => LoopWeight(c) + 6 + 2 * |batch|
    case Rearming(c) => LoopWeight(c) + 5
    case StopClearing => 8
    case StopChecking => 4
  }

  function LoopWeight(c: Caller): nat { if c == StopFirst then 5 else 1 }

  ghost function Sum(threads: Threads): nat {
    if threads == map[] then 0
    else
      var t :| t in threads;
      Weight(threads[t]) + Sum(threads - {t})
  }

  lemma {:induction false} SumWithout(threads: Threads, t: nat)
    requires t in threads
    ensures Sum(threads) == Weight(threads[t]) + Sum(threads - {t})
  {
    var u :| u in threads && Sum(threads) == Weight(threads[u]) + Sum(threads - {u});
    if u != t {
      SumWithout(threads - {u}, t);
      SumWithout(threads - {t}, u);
      assert threads - {u} - {t} == threads - {t} - {u};
    }
  }

  function WeightOf(pc: Option<Pc>): nat { if pc.Some? then Weight(pc.value) else 0 }

  lemma SumPlaced(threads: Threads, t: nat, pc: Option<Pc>)
    ensures Sum(Place(threads, t, pc)) + (if t in threads then Weight(threads[t]) else 0) == Sum(threads) + WeightOf(pc)
  {
    if t in threads {
      SumWithout(threads, t);
    } else {
      assert threads - {t} == threads;
    }
    if pc.Some? {
      SumWithout(threads[t := pc.value], t);
      assert threads[t := pc.value] - {t} == threads - {t};
    }
  }

  function Stock(s: State): nat { 2 * |s.pending| + 5 * |s.timers.armed| }

  ghost function Measure(s: State): nat { Stock(s) + Sum(s.threads) }

  lemma TimerCount(timers: Timers)
    ensures |timers.Clear().armed| <= |timers.armed|
    ensures |timers.Ensure().armed| <= |timers.armed| + 1
  {
    if timers.handle.Some? && timers.handle.value !in timers.armed {
      assert timers.armed - {timers.handle.value} == timers.armed;
    }
  }

  ghost predicate Lowers(s: State, pc: Pc, e: Effect) { Stock(e.s) + WeightOf(e.pc) < Stock(s) + Weight(pc) }

  lemma AppendLowers(cfg: Config, s: State, rec: Record)
    requires cfg.Usable()
    ensures Lowers(s, Enqueueing(rec), Append(cfg, s, rec))
  {
  }

  lemma LoopLowers(cfg: Config, s: State, t: nat)
    requires cfg.Usable() && t in s.threads && (s.threads[t].Looping? || s.threads[t].Writing?)
    ensures Lowers(s, s.threads[t], Region(cfg, s, t, true))
  {
  }

  lemma LeaveLowers(cfg: Config, s: State, t: nat)
    requires cfg.Usable() && t in s.threads
    requires s.threads[t].Clearing? || s.threads[t].Failed? || s.threads[t].Rearming?
    ensures Lowers(s, s.threads[t], Region(cfg, s, t, true))
  {
    TimerCount(s.timers);
  }

  lemma RegionLowers(cfg: Config, s: State, t: nat)
    requires cfg.Usable() && t in s.threads
    ensures Lowers(s, s.threads[t], Region(cfg, s, t, true))
  {
    var pc := s.threads[t];
    if pc.Enqueueing? {
      AppendLowers(cfg, s, pc.rec);
    } else if pc.Looping? || pc.Writing? {
      LoopLowers(cfg, s, t);
    } else if pc.HoldsFlushLock() {
      LeaveLowers(cfg, s, t);
    } else {
      TimerCount(s.timers);
    }
  }

  /** Every step of its own accord lowers the measure. */
  lemma OwnStepLowers(cfg: Config, s: State, a: Action)
    requires cfg.Usable() && OnItsOwn(a) && Enabled(s, a)
    ensures Measure(Next(cfg, s, a)) < Measure(s)
  {
    SumPlaced(s.threads, a.t, Step(cfg, s, a).pc);
    if a.Advance? {
      RegionLowers(cfg, s, a.t);
    }
  }

  lemma {:induction false} UpperBound(ids: set<nat>) returns (n: nat)
    ensures forall i :: i in ids ==> i < n
  {
    if ids == {} {
      n := 0;
    } else {
      var i :| i in ids;
      var m := UpperBound(ids - {i});
      n := if m > i then m else i + 1;
      assert forall j :: j in ids ==> j == i || j in ids - {i};
    }
  }

  /** Nothing is left that moves by itself. */
  ghost predicate AtRest(s: State) { forall a :: OnItsOwn(a) ==> !Enabled(s, a) }

  /** Then nothing runs, no timer is armed and no record waits. */
  lemma RestIsEmpty(cfg: Config, s: State)
    requires Inv(cfg, s) && AtRest(s)
    ensures s.threads == map[] && s.timers.armed == {} && Empty(s)
  {
    if s.holder.Some? {
      assert !Enabled(s, Advance(s.holder.value, true));
    }
    forall t ensures t !in s.threads {
      assert !Enabled(s, Advance(t, true));
    }
    var fresh_t := UpperBound(s.threads.Keys);
    forall id ensures id !in s.timers.armed {
      assert !Enabled(s, Expire(fresh_t, id));
    }
  }

  /** A run of own steps, each enabled when it is taken. */
  ghost predicate OwnRun(cfg: Config, s: State, run: seq<Action>)
    requires cfg.Usable()
  {
    run != [] ==>
      var front, a := run[..|run| - 1], run[|run| - 1];
      OwnRun(cfg, s, front) && OnItsOwn(a) && Enabled(Exec(cfg, s, front), a)
  }

  lemma {:induction false} OwnRunIsShort(cfg: Config, s: State, run: seq<Action>)
    requires cfg.Usable() && OwnRun(cfg, s, run)
    ensures |run| + Measure(Exec(cfg, s, run)) <= Measure(s)
  {
    if run != [] {
      OwnRunIsShort(cfg, s, run[..|run| - 1]);
      OwnStepLowers(cfg, Exec(cfg, s, run[..|run| - 1]), run[|run| - 1]);
    }
  }

  /** However its own steps interleave, from every reachable state: there are at most so many
      of them, and when no more is possible the buffer is empty. */
  lemma OwnRunsDrain(cfg: Config, before: seq<Action>, run: seq<Action>)
    requires cfg.Usable() && OwnRun(cfg, Exec(cfg, INIT, before), run)
    ensures var s := Exec(cfg, INIT, before);
      && |run| <= Measure(s)
      && (AtRest(Exec(cfg, s, run)) ==> Empty(Exec(cfg, s, run)) && Exec(cfg, s, run).threads == map[])
  {
    var s := Exec(cfg, INIT, before);
    EveryRun(cfg, before);
    RunKeepsInv(cfg, s, run);
    OwnRunIsShort(cfg, s, run);
    if AtRest(Exec(cfg, s, run)) {
      RestIsEmpty(cfg, Exec(cfg, s, run));
    }
  }

  lemma {:induction false} ComesToRest(cfg: Config, s: State, run: seq<Action>) returns (whole: seq<Action>)
    requires cfg.Usable() && Inv(cfg, s) && OwnRun(cfg, s, run)
    ensures run <= whole && OwnRun(cfg, s, whole) && AtRest(Exec(cfg, s, whole))
    decreases Measure(s) - |run|
  {
    OwnRunIsShort(cfg, s, run);
    whole := run;
    if a :| OnItsOwn(a) && Enabled(Exec(cfg, s, run), a) {
      assert (run + [a])[..|run|] == run;
      OwnRunIsShort(cfg, s, run + [a]);
      whole := ComesToRest(cfg, s, run + [a]);
    }
  }

  /** Every such run can be brought to its end, in which the buffer is empty: the wake-up that
      remains in a reachable state is always enough. */
  lemma AlwaysDrains(cfg: Config, before: seq<Action>, run: seq<Action>)
    requires cfg.Usable() && OwnRun(cfg, Exec(cfg, INIT, before), run)
    ensures var s := Exec(cfg, INIT, before);
      exists whole :: run <= whole && OwnRun(cfg, s, whole) && AtRest(Exec(cfg, s, whole)) && Empty(Exec(cfg, s, whole))
  {
    EveryRun(cfg, before);
    var whole := ComesToRest(cfg, Exec(cfg, INIT, before), run);
    OwnRunsDrain(cfg, before, whole);
  }
}
