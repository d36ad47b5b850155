/** The regions of one call, undisturbed, are the sequential operation of WriteBuffer.Buffer:
    the same records written, the same queue, the same timers, for every sink. */
module WriteBufferAlone {
  import opened Common
  import opened WriteBuffer
  import opened WriteBufferRuns

  /** A state, and how many sink calls the running flush has made. */
  datatype Solo = Solo(s: State, calls: nat)

  /** The next region of goroutine t; `ask` are the sink's answers in each of its flushes. */
  function Step1(cfg: Config, t: nat, ask: Caller -> nat -> bool, p: Solo): Solo
    requires cfg.Usable()
  {
    if t !in p.s.threads then p
    else
      match p.s.threads[t]
      case Writing(c, _) => Solo(Next(cfg, p.s, Advance(t, ask(c)(p.calls))), p.calls + 1)
      case FlushQueued(_) => Solo(Next(cfg, p.s, Advance(t, true)), 0)
      case _ => Solo(Next(cfg, p.s, Advance(t, true)), p.calls)
  }

  function Stepper(cfg: Config, t: nat, ask: Caller -> nat -> bool): Solo -> Solo
    requires cfg.Usable()
  {
    (p: Solo) => Step1(cfg, t, ask, p)
  }

  function Iterate(f: Solo -> Solo, p: Solo, k: nat): Solo
    decreases k
  {
    if k == 0 then p else Iterate(f, f(p), k - 1)
  }

  ghost predicate Reaches(f: Solo -> Solo, p: Solo, q: Solo) { exists k: nat :: Iterate(f, p, k) == q }

  lemma {:induction false} IterateAdds(f: Solo -> Solo, p: Solo, j: nat, k: nat)
    ensures Iterate(f, p, j + k) == Iterate(f, Iterate(f, p, j), k)
    decreases j
  {
    if j > 0 {
      IterateAdds(f, f(p), j - 1, k);
    }
  }

  lemma ReachesStep(f: Solo -> Solo, p: Solo, q: Solo)
    requires Reaches(f, f(p), q)
    ensures Reaches(f, p, q)
  {
    var k: nat :| Iterate(f, f(p), k) == q;
    assert Iterate(f, p, k + 1) == q;
  }

  lemma ReachesOn(f: Solo -> Solo, p: Solo, q: Solo, r: Solo)
    requires Reaches(f, p, q) && Reaches(f, q, r)
    ensures Reaches(f, p, r)
  {
    var j: nat :| Iterate(f, p, j) == q;
    var k: nat :| Iterate(f, q, k) == r;
    IterateAdds(f, p, j, k);
    assert Iterate(f, p, j + k) == r;
  }

  /** Running alone, t gets from p to q. */
  ghost predicate Leads(cfg: Config, t: nat, ask: Caller -> nat -> bool, p: Solo, q: Solo)
    requires cfg.Usable()
  {
    Reaches(Stepper(cfg, t, ask), p, q)
  }

  lemma LeadsStay(cfg: Config, t: nat, ask: Caller -> nat -> bool, p: Solo)
    requires cfg.Usable()
    ensures Leads(cfg, t, ask, p, p)
  {
    assert Iterate(Stepper(cfg, t, ask), p, 0) == p;
  }

  /** One region first. */
  lemma LeadsStep(cfg: Config, t: nat, ask: Caller -> nat -> bool, p: Solo, q: Solo)
    requires cfg.Usable() && Leads(cfg, t, ask, Step1(cfg, t, ask, p), q)
    ensures Leads(cfg, t, ask, p, q)
  {
    ReachesStep(Stepper(cfg, t, ask), p, q);
  }

  lemma LeadsOn(cfg: Config, t: nat, ask: Caller -> nat -> bool, p: Solo, q: Solo, r: Solo)
    requires cfg.Usable() && Leads(cfg, t, ask, p, q) && Leads(cfg, t, ask, q, r)
    ensures Leads(cfg, t, ask, p, r)
  {
    ReachesOn(Stepper(cfg, t, ask), p, q, r);
  }

  /** The state once a flush in its loop has returned. */
  function Left(s: State, t: nat, c: Caller, written: seq<Entry>, rest: seq<Entry>): State {
    s.(pending := rest, delivered := s.delivered + written, holder := None,
       timers := if rest != [] then s.timers.Ensure() else s.timers,
       drained := s.drained || (rest == [] && c != Detached),
       threads := Place(s.threads, t, Resume(c)))
  }

  lemma PlaceTwice(threads: Threads, t: nat, p: Pc, q: Option<Pc>)
    ensures Place(threads[t := p], t, q) == Place(threads, t, q)
  {
  }

  /** The loop of a flush. */
  lemma {:induction false} LoopAlone(cfg: Config, t: nat, ask: Caller -> nat -> bool, s: State, c: Caller, n: nat)
    returns (q: Solo)
    requires cfg.Usable() && t in s.threads && s.threads[t] == Looping(c)
    ensures Leads(cfg, t, ask, Solo(s, n), q)
    ensures var (written, rest) := Flushed(cfg, s.pending, ask(c), n); q.s == Left(s, t, c, Flat(written), rest)
    decreases |s.pending|
  {
    var p := Solo(s, n);
    if s.pending == [] {
      q := Step1(cfg, t, ask, p);
      LeadsStay(cfg, t, ask, q);
      assert s.delivered + [] == s.delivered;
    } else {
      var p2 := Step1(cfg, t, ask, Step1(cfg, t, ask, p));
      var k := Take(cfg, s.pending);
      if ask(c)(n) {
        BatchAlone(cfg, t, ask, s, c, n);
        q := LoopAlone(cfg, t, ask, p2.s, c, n + 1);
        var (written, rest) := Flushed(cfg, s.pending[k..], ask(c), n + 1);
        OneMoreBatch(s, t, c, s.pending[..k], s.pending[k..], written, rest);
      } else {
        q := Step1(cfg, t, ask, Step1(cfg, t, ask, p2));
        RefusedAlone(cfg, t, ask, s, c, n);
        LeadsStay(cfg, t, ask, q);
        LeadsStep(cfg, t, ask, Step1(cfg, t, ask, p2), q);
        LeadsStep(cfg, t, ask, p2, q);
      }
      LeadsStep(cfg, t, ask, Step1(cfg, t, ask, p), q);
    }
    LeadsStep(cfg, t, ask, p, q);
  }

  /** One batch that the sink accepts. */
  function Batched(s: State, t: nat, c: Caller, batch: seq<Entry>, rest: seq<Entry>): State {
    s.(pending := rest, delivered := s.delivered + batch, threads := s.threads[t := Looping(c)])
  }

  lemma BatchAlone(cfg: Config, t: nat, ask: Caller -> nat -> bool, s: State, c: Caller, n: nat)
    requires cfg.Usable() && t in s.threads && s.threads[t] == Looping(c) && s.pending != [] && ask(c)(n)
    ensures var k := Take(cfg, s.pending);
      Step1(cfg, t, ask, Step1(cfg, t, ask, Solo(s, n)))
        == Solo(Batched(s, t, c, s.pending[..k], s.pending[k..]), n + 1)
  {
    var k := Take(cfg, s.pending);
    var s1 := s.(pending := s.pending[k..], threads := s.threads[t := Writing(c, s.pending[..k])]);
    assert Step1(cfg, t, ask, Solo(s, n)) == Solo(s1, n);
    assert s1.threads[t := Looping(c)] == s.threads[t := Looping(c)];
  }

  lemma OneMoreBatch(s: State, t: nat, c: Caller, batch: seq<Entry>, left: seq<Entry>,
                     written: seq<seq<Entry>>, rest: seq<Entry>)
    ensures Left(Batched(s, t, c, batch, left), t, c, Flat(written), rest)
      == Left(s, t, c, Flat([batch] + written), rest)
  {
    FlatConcat([batch], written);
    FlatSnoc([], batch);
    assert [] + [batch] == [batch] && [] + batch == batch;
    Reassociate(s.delivered, batch, Flat(written));
    PlaceTwice(s.threads, t, Looping(c), Resume(c));
  }

  /** A batch that the sink refuses: back in front of the queue, and a timer. */
  lemma RefusedAlone(cfg: Config, t: nat, ask: Caller -> nat -> bool, s: State, c: Caller, n: nat)
    requires cfg.Usable() && t in s.threads && s.threads[t] == Looping(c) && s.pending != [] && !ask(c)(n)
    ensures var p2 := Step1(cfg, t, ask, Step1(cfg, t, ask, Solo(s, n)));
      Step1(cfg, t, ask, Step1(cfg, t, ask, p2)).s == Left(s, t, c, [], s.pending)
  {
    var k := Take(cfg, s.pending);
    var batch, back := s.pending[..k], s.pending[k..];
    var s1 := s.(pending := back, threads := s.threads[t := Writing(c, batch)]);
    var s2 := s1.(threads := s.threads[t := Failed(c, batch)]);
    assert Step1(cfg, t, ask, Solo(s, n)) == Solo(s1, n);
    assert s1.threads[t := Failed(c, batch)] == s2.threads;
    assert Step1(cfg, t, ask, Solo(s1, n)) == Solo(s2, n + 1);
    assert batch + back == s.pending;
    RequeuedAlone(cfg, t, ask, s2, c, batch, n + 1);
    PlaceTwice(s.threads, t, Failed(c, batch), Resume(c));
  }

  lemma RequeuedAlone(cfg: Config, t: nat, ask: Caller -> nat -> bool, s: State, c: Caller, batch: seq<Entry>, n: nat)
    requires cfg.Usable() && t in s.threads && s.threads[t] == Failed(c, batch) && batch != []
    ensures Step1(cfg, t, ask, Step1(cfg, t, ask, Solo(s, n))).s
      == Left(s, t, c, [], batch + s.pending)
  {
    var s3 := s.(pending := batch + s.pending, threads := s.threads[t := Rearming(c)]);
    assert Step1(cfg, t, ask, Solo(s, n)) == Solo(s3, n);
    PlaceTwice(s.threads, t, Rearming(c), Resume(c));
    assert s.delivered + [] == s.delivered;
  }

  /** A whole flush, from the moment its goroutine waits for a free flushMu. */
  function AfterFlush(cfg: Config, s: State, t: nat, c: Caller, accepts: nat -> bool): State
    requires cfg.Usable()
  {
    var (written, rest) := Flushed(cfg, s.pending, accepts, 0);
    s.(pending := rest, delivered := s.delivered + Flat(written),
       timers := TimersAfter(s.timers, rest != []),
       drained := s.drained || (rest == [] && c != Detached),
       threads := Place(s.threads, t, Resume(c)))
  }

  lemma QueuedAlone(cfg: Config, t: nat, ask: Caller -> nat -> bool, s: State, c: Caller, n: nat) returns (q: Solo)
    requires cfg.Usable() && s.holder.None? && t in s.threads && s.threads[t] == FlushQueued(c)
    ensures Leads(cfg, t, ask, Solo(s, n), q) && q.s == AfterFlush(cfg, s, t, c, ask(c))
  {
    var p := Solo(s, n);
    var s1 := s.(holder := Some(t), threads := s.threads[t := Clearing(c)]);
    var s2 := s1.(timers := s.timers.Clear(), threads := s.threads[t := Looping(c)]);
    assert Step1(cfg, t, ask, p) == Solo(s1, 0);
    assert s1.threads[t := Looping(c)] == s2.threads;
    assert Step1(cfg, t, ask, Solo(s1, 0)) == Solo(s2, 0);
    q := LoopAlone(cfg, t, ask, s2, c, 0);
    PlaceTwice(s.threads, t, Looping(c), Resume(c));
    LeadsStep(cfg, t, ask, Solo(s1, 0), q);
    LeadsStep(cfg, t, ask, p, q);
  }

  /** Flush, called while flushMu is free and left alone, is Buffer.Flush. */
  lemma FlushAlone(cfg: Config, s: State, t: nat, ask: Caller -> nat -> bool) returns (q: Solo)
    requires cfg.Usable() && s.holder.None? && t !in s.threads
    ensures Leads(cfg, t, ask, Solo(Next(cfg, s, CallFlush(t)), 0), q)
    ensures var (written, rest) := Flushed(cfg, s.pending, ask(Detached), 0);
      q.s == s.(pending := rest, delivered := s.delivered + Flat(written), timers := TimersAfter(s.timers, rest != []))
  {
    var s0 := Next(cfg, s, CallFlush(t));
    q := QueuedAlone(cfg, t, ask, s0, Detached, 0);
    assert s0.threads - {t} == s.threads;
  }

  /** A timer that fires and is left alone: its handle is forgotten, then Buffer.Flush. */
  lemma TimerAlone(cfg: Config, s: State, t: nat, id: nat, ask: Caller -> nat -> bool) returns (q: Solo)
    requires cfg.Usable() && s.holder.None? && t !in s.threads && id in s.timers.armed
    ensures Leads(cfg, t, ask, Solo(Next(cfg, s, Expire(t, id)), 0), q)
    ensures var (written, rest) := Flushed(cfg, s.pending, ask(Detached), 0);
      var timers := Timers(None, s.timers.armed - {id}, s.timers.next);
      q.s == s.(pending := rest, delivered := s.delivered + Flat(written), timers := TimersAfter(timers, rest != []))
  {
    var s0 := Next(cfg, s, Expire(t, id));
    var s1 := Next(cfg, s0, Advance(t, true));
    assert Step1(cfg, t, ask, Solo(s0, 0)) == Solo(s1, 0);
    q := QueuedAlone(cfg, t, ask, s1, Detached, 0);
    LeadsStep(cfg, t, ask, Solo(s0, 0), q);
    assert s1.threads - {t} == s.threads;
  }

  /** Enqueue, left alone for its two regions, is Buffer.Enqueue: refused when stopping, else
      queued, with a flush goroutine exactly when the queue has reached the batch size, and a
      handle otherwise. */
  lemma EnqueueAlone(cfg: Config, s: State, t: nat, rec: Record)
    requires cfg.Usable() && t !in s.threads
    ensures var s1 := Next(cfg, Next(cfg, s, Produce(t, rec)), Advance(t, true));
      var s2 := Next(cfg, s1, Advance(t, true));
      var queue := Admit(cfg.maxPending, s.pending, Entry(|s.accepted|, rec));
      && (s.stopping ==> s1 == s2 == s)
      && (!s.stopping ==>
            && s2.pending == queue && s2.accepted == s.accepted + [rec]
            && s2.delivered == s.delivered && s2.holder == s.holder
            && s2.dropped == s.dropped + (if |s.pending| >= cfg.maxPending then {s.pending[0].id} else {})
            && s2.threads == (if |queue| >= cfg.batchSize then s.threads[t := FlushQueued(Detached)] else s.threads)
            && s2.timers == (if |queue| >= cfg.batchSize then s.timers else s.timers.Ensure())
            && (|queue| < cfg.batchSize ==> s2.timers.handle.Some?))
  {
    var s0 := Next(cfg, s, Produce(t, rec));
    assert s0.threads - {t} == s.threads;
    if !s.stopping {
      var s1 := Next(cfg, s0, Advance(t, true));
      var queue := Admit(cfg.maxPending, s.pending, Entry(|s.accepted|, rec));
      assert s1.threads == s.threads[t := Appended(|queue|)];
      assert s1.threads - {t} == s.threads;
      assert s1.threads[t := FlushQueued(Detached)] == s.threads[t := FlushQueued(Detached)];
    }
  }

  /** Stop, called for the first time and left alone, is Buffer.Stop. */
  lemma StopAlone(cfg: Config, s: State, t: nat, ask: Caller -> nat -> bool) returns (q: Solo)
    requires cfg.Usable() && s.holder.None? && t !in s.threads && !s.stopCalled
    ensures Leads(cfg, t, ask, Solo(Next(cfg, s, CallStop(t)), 0), q)
    ensures var (written, rest, timers) :=
        StopResult(cfg, s.pending, s.timers.Clear(), ask(StopFirst), ask(StopSecond));
      q.s == s.(stopping := true, stopCalled := true, pending := rest, delivered := s.delivered + written,
                timers := timers, drained := s.drained || rest == [])
  {
    var s0 := Next(cfg, s, CallStop(t));
    var s1 := Next(cfg, s0, Advance(t, true));
    assert Step1(cfg, t, ask, Solo(s0, 0)) == Solo(s1, 0);
    assert s1.threads == s.threads[t := FlushQueued(StopFirst)];
    var q1 := QueuedAlone(cfg, t, ask, s1, StopFirst, 0);
    PlaceTwice(s.threads, t, FlushQueued(StopFirst), Some(StopChecking));
    q := SecondLook(cfg, t, ask, q1, s.threads);
    LeadsOn(cfg, t, ask, Solo(s1, 0), q1, q);
    LeadsStep(cfg, t, ask, Solo(s0, 0), q);
    var (one, left) := Flushed(cfg, s.pending, ask(StopFirst), 0);
    var (two, rest) := Flushed(cfg, left, ask(StopSecond), 0);
    Reassociate(s.delivered, Flat(one), Flat(two));
  }

  /** Stop's second look at the queue, and its second flush if there is something in it. */
  lemma SecondLook(cfg: Config, t: nat, ask: Caller -> nat -> bool, p: Solo, others: Threads) returns (q: Solo)
    requires cfg.Usable() && p.s.holder.None? && t !in others && p.s.threads == others[t := StopChecking]
    ensures Leads(cfg, t, ask, p, q)
    ensures p.s.pending == [] ==> q.s == p.s.(threads := others)
    ensures p.s.pending != [] ==>
      q.s == AfterFlush(cfg, p.s, t, StopSecond, ask(StopSecond)).(threads := others)
  {
    var p1 := Step1(cfg, t, ask, p);
    if p.s.pending == [] {
      q := p1;
      assert others[t := StopChecking] - {t} == others;
      LeadsStay(cfg, t, ask, q);
    } else {
      assert p1.s == p.s.(threads := others[t := FlushQueued(StopSecond)]);
      q := QueuedAlone(cfg, t, ask, p1.s, StopSecond, p1.calls);
      assert others[t := FlushQueued(StopSecond)] - {t} == others;
    }
    LeadsStep(cfg, t, ask, p, q);
  }

  /** Whatever else is running, even a flush that holds flushMu: the first region of Stop's
      call refuses further records, the next cancels the timer, and no later call does
      anything. */
  lemma StopAtOnce(cfg: Config, s: State, t: nat, u: nat, ok: bool)
    requires cfg.Usable() && t !in s.threads
    ensures var s1 := Next(cfg, s, CallStop(t));
      && (s.stopCalled ==> s1 == s)
      && (!s.stopCalled ==>
            && s1.stopping && s1.stopCalled && Next(cfg, s1, CallStop(u)) == s1
            && Next(cfg, s1, Advance(t, ok)).timers == s.timers.Clear())
  {
  }
}
