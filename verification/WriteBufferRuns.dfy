/** The write buffer under concurrency (internal/repository/write_buffer.go:89-207):
    producers, flushes, timer callbacks and Stop interleave freely, one lock-protected
    region per step. A step that is not enabled changes nothing, so every list of
    actions is a run and the theorems quantify over all of them. */
module WriteBufferRuns {
  import opened Common
  import opened WriteBuffer

  /** The request record is opaque to the buffer. */
  type Record = int

  /** A queued record with its acceptance number. */
  datatype Entry = Entry(id: nat, rec: Record)

  /** Who called Flush: a goroutine of its own, or Stop for its first or second pass. */
  datatype Caller = Detached | StopFirst | StopSecond

  /** Where a goroutine stands, named after what it does next. */
  datatype Pc =
    | Enqueueing(rec: Record)                   // Enqueue, before its mu region
    | Appended(size: nat)                       // mu released, before `go Flush` or ensureTimer
    | TimerFired                                // timer callback, before it clears the handle
    | FlushQueued(caller: Caller)               // waiting for flushMu
    | Clearing(caller: Caller)                  // holds flushMu, before clearTimer
    | Looping(caller: Caller)                   // holds flushMu, before taking a batch
    | Writing(caller: Caller, batch: seq<Entry>)  // sink call running
    | Failed(caller: Caller, batch: seq<Entry>)   // sink refused, before the requeue
    | Rearming(caller: Caller)                  // requeued, before ensureTimer
    | StopClearing                              // stopping is set, before clearTimer
    | StopChecking                              // first flush returned, before the second look
  {
    predicate HoldsFlushLock() {
      Clearing? || Looping? || Writing? || Failed? || Rearming?
    }

    function InHand(): seq<Entry> {
      if Writing? || Failed? then batch else []
    }

    predicate ForStop() {
      || StopClearing? || StopChecking?
      || ((FlushQueued? || HoldsFlushLock()) && caller != Detached)
    }

    /** A goroutine that is bound to look after the records already queued. */
    predicate WillAttend() {
      || TimerFired?                      // a timer has fired
      || FlushQueued? || HoldsFlushLock() // a flush is queued or running
      || StopClearing? || StopChecking?   // Stop is between its flushes
      || Appended?                        // a producer past its append
    }
  }

  type Threads = map<nat, Pc>

  /** `accepted`, `delivered` and `dropped` record the history; `drained` is set when
      a flush run by Stop leaves because the queue is empty. */
  datatype State = State(
    pending: seq<Entry>, stopping: bool, stopCalled: bool, timers: Timers,
    holder: Option<nat>, threads: Threads,
    accepted: seq<Record>, delivered: seq<Entry>, dropped: set<nat>, drained: bool)
  {
    function InFlight(): seq<Entry> {
      if holder.Some? && holder.value in threads then threads[holder.value].InHand() else []
    }

    /** Everything accepted and not dropped, in the order it reaches the sink. */
    function Stream(): seq<Entry> {
      delivered + InFlight() + pending
    }
  }

  const INIT := State([], false, false, NO_TIMERS, None, map[], [], [], {}, false)

  datatype Action =
    | Produce(t: nat, rec: Record)   // a goroutine calls Enqueue
    | CallFlush(t: nat)              // a goroutine calls Flush
    | CallStop(t: nat)               // a goroutine calls Stop
    | Expire(t: nat, id: nat)        // an armed timer starts its callback
    | Advance(t: nat, sinkOk: bool)  // goroutine t runs its next region

  predicate Enabled(s: State, a: Action) {
    match a
    case Produce(t, _) => t !in s.threads
    case CallFlush(t) => t !in s.threads
    case CallStop(t) => t !in s.threads && !s.stopCalled
    case Expire(t, id) => t !in s.threads && id in s.timers.armed
    case Advance(t, _) => t in s.threads && (s.threads[t].FlushQueued? ==> s.holder.None?)
  }

  /** A step's effect on everything but the moving goroutine, and where that goes next
      (None when it is done). */
  datatype Effect = Effect(s: State, pc: Option<Pc>)

  function Next(cfg: Config, s: State, a: Action): State
    requires cfg.Usable()
  {
    if !Enabled(s, a) then s
    else
      var Effect(s1, pc) := Step(cfg, s, a);
      s1.(threads := Place(s.threads, a.t, pc))
  }

  function Place(threads: Threads, t: nat, pc: Option<Pc>): Threads {
    match pc
    case Some(p) => threads[t := p]
    case None => threads - {t}
  }

  function Step(cfg: Config, s: State, a: Action): Effect
    requires cfg.Usable() && Enabled(s, a)
  {
    match a
    case Produce(_, rec) => Effect(s, Some(Enqueueing(rec)))
    case CallFlush(_) => Effect(s, Some(FlushQueued(Detached)))
    case CallStop(_) => Effect(s.(stopCalled := true, stopping := true), Some(StopClearing))
    case Expire(_, id) =>
      Effect(s.(timers := s.timers.(armed := s.timers.armed - {id})), Some(TimerFired))
    case Advance(t, ok) => Region(cfg, s, t, ok)
  }

  /** The next region of goroutine t. */
  function Region(cfg: Config, s: State, t: nat, ok: bool): Effect
    requires cfg.Usable() && t in s.threads
  {
    match s.threads[t]
    case Enqueueing(rec) => if s.stopping then Effect(s, None) else Append(cfg, s, rec)
    case Appended(size) =>
      if size >= cfg.batchSize then Effect(s, Some(FlushQueued(Detached)))
      else Effect(s.(timers := s.timers.Ensure()), None)
    case TimerFired =>
      Effect(s.(timers := s.timers.(handle := None)), Some(FlushQueued(Detached)))
    case FlushQueued(c) => Effect(s.(holder := Some(t)), Some(Clearing(c)))
    case Clearing(c) => Effect(s.(timers := s.timers.Clear()), Some(Looping(c)))
    case Looping(c) =>
      if s.pending == [] then
        Effect(s.(holder := None, drained := s.drained || c != Detached), Resume(c))
      else
        var k := Take(cfg, s.pending);
        Effect(s.(pending := s.pending[k..]), Some(Writing(c, s.pending[..k])))
    case Writing(c, batch) =>
      if ok then Effect(s.(delivered := s.delivered + batch), Some(Looping(c)))
      else Effect(s, Some(Failed(c, batch)))
    case Failed(c, batch) => Effect(s.(pending := batch + s.pending), Some(Rearming(c)))
    case Rearming(c) => Effect(s.(holder := None, timers := s.timers.Ensure()), Resume(c))
    case StopClearing => Effect(s.(timers := s.timers.Clear()), Some(FlushQueued(StopFirst)))
    case StopChecking =>
      Effect(s, if s.pending != [] then Some(FlushQueued(StopSecond)) else None)
  }

  /** Where the caller of a returning Flush continues. */
  function Resume(c: Caller): Option<Pc> {
    if c == StopFirst then Some(StopChecking) else None
  }

  /** Enqueue's mu region when the buffer is not stopping. */
  function Append(cfg: Config, s: State, rec: Record): Effect
    requires cfg.Usable()
  {
    var queue := Admit(cfg.maxPending, s.pending, Entry(|s.accepted|, rec));
    var dropped := if |s.pending| >= cfg.maxPending then {s.pending[0].id} else {};
    Effect(s.(pending := queue, dropped := s.dropped + dropped, accepted := s.accepted + [rec]),
           Some(Appended(|queue|)))
  }

  function Exec(cfg: Config, s: State, run: seq<Action>): State
    requires cfg.Usable()
  {
    if run == [] then s else Next(cfg, Exec(cfg, s, run[..|run| - 1]), run[|run| - 1])
  }

  // ---------------------------------------------------------------- invariants

  /** flushMu is held by exactly the goroutine inside the locked part of Flush. */
  ghost predicate Mutex(holder: Option<nat>, threads: Threads) {
    && (holder.Some? ==> holder.value in threads)
    && forall t :: t in threads ==> (threads[t].HoldsFlushLock() <==> holder == Some(t))
  }

  ghost predicate Increasing(es: seq<Entry>) {
    forall i, j :: 0 <= i < j < |es| ==> es[i].id < es[j].id
  }

  function Ids(es: seq<Entry>): set<nat> { set i | 0 <= i < |es| :: es[i].id }

  /** No loss, no duplicate, no reordering: the stream is in acceptance order, carries
      the accepted records, and together with the dropped ones it is all of them. */
  ghost predicate Conserved(stream: seq<Entry>, dropped: set<nat>, accepted: seq<Record>) {
    && Increasing(stream)
    && (forall i :: 0 <= i < |stream| ==>
          stream[i].id < |accepted| && accepted[stream[i].id] == stream[i].rec)
    && Ids(stream) !! dropped
    && (forall n: nat :: n < |accepted| <==> n in Ids(stream) || n in dropped)
  }

  /** The queue's real size bound, and the slack that keeps it. */
  ghost predicate Bounded(cfg: Config, queued: nat, inHand: nat) {
    && queued + inHand <= cfg.maxPending + cfg.batchSize
    && inHand <= cfg.batchSize
    && (inHand > 0 ==> queued <= cfg.maxPending)
  }

  ghost predicate SomeFired(threads: Threads) {
    exists t :: t in threads && threads[t].TimerFired?
  }

  ghost predicate SomeAttends(threads: Threads) {
    exists t :: t in threads && threads[t].WillAttend()
  }

  /** The handle is never left pointing at a timer that can do nothing. */
  ghost predicate HandleLive(timers: Timers, threads: Threads) {
    timers.handle.Some? ==> timers.handle.value in timers.armed || SomeFired(threads)
  }

  /** No lost wake-up. */
  ghost predicate Attended(s: State) {
    s.pending != [] ==> s.timers.armed != {} || SomeAttends(s.threads)
  }

  /** Goroutines working for Stop run only after it has set the flag. */
  ghost predicate StopFirstSet(stopping: bool, threads: Threads) {
    stopping || forall t :: t in threads ==> !threads[t].ForStop()
  }

  /** After a clean drain by Stop the buffer is empty for good. */
  ghost predicate DrainHolds(s: State) {
    s.drained ==> s.stopping && s.pending == [] && s.InFlight() == []
  }

  ghost predicate Inv(cfg: Config, s: State) {
    && Mutex(s.holder, s.threads)
    && Conserved(s.Stream(), s.dropped, s.accepted)
    && Bounded(cfg, |s.pending|, |s.InFlight()|)
    && HandleLive(s.timers, s.threads)
    && Attended(s)
    && StopFirstSet(s.stopping, s.threads)
    && DrainHolds(s)
  }

  // ------------------------------------------------------------- preservation

  /** What a step may do to flushMu: only the moving goroutine takes or leaves it. */
  lemma LockDiscipline(cfg: Config, s: State, a: Action)
    requires cfg.Usable() && Enabled(s, a) && Mutex(s.holder, s.threads)
    ensures var e := Step(cfg, s, a);
      && (e.s.holder == Some(a.t) <==> e.pc.Some? && e.pc.value.HoldsFlushLock())
      && (e.s.holder == s.holder || (s.holder in {None, Some(a.t)} && e.s.holder in {None, Some(a.t)}))
  {
    if a.Advance? {
      RegionDiscipline(cfg, s, a.t, a.sinkOk);
    }
  }

  lemma RegionDiscipline(cfg: Config, s: State, t: nat, ok: bool)
    requires cfg.Usable() && t in s.threads && Mutex(s.holder, s.threads)
    requires s.threads[t].FlushQueued? ==> s.holder.None?
    ensures var e := Region(cfg, s, t, ok);
      && (e.s.holder == Some(t) <==> e.pc.Some? && e.pc.value.HoldsFlushLock())
      && (e.s.holder == s.holder || (s.holder in {None, Some(t)} && e.s.holder in {None, Some(t)}))
  {
  }

  lemma MutexKept(cfg: Config, s: State, a: Action)
    requires cfg.Usable() && Mutex(s.holder, s.threads)
    ensures Mutex(Next(cfg, s, a).holder, Next(cfg, s, a).threads)
  {
    if Enabled(s, a) {
      LockDiscipline(cfg, s, a);
      PlaceKeepsMutex(s.holder, s.threads, a.t, Step(cfg, s, a).s.holder, Step(cfg, s, a).pc);
    }
  }

  lemma PlaceKeepsMutex(holder: Option<nat>, threads: Threads, t: nat, holder': Option<nat>, pc: Option<Pc>)
    requires Mutex(holder, threads)
    requires holder' == Some(t) <==> pc.Some? && pc.value.HoldsFlushLock()
    requires holder' == holder || (holder in {None, Some(t)} && holder' in {None, Some(t)})
    ensures Mutex(holder', Place(threads, t, pc))
  {
  }

  /** What the sink call in progress holds after a step. */
  lemma InFlightAfter(cfg: Config, s: State, a: Action)
    requires cfg.Usable() && Enabled(s, a) && Mutex(s.holder, s.threads)
    ensures var e := Step(cfg, s, a);
      Next(cfg, s, a).InFlight() ==
        if s.holder == Some(a.t) || e.s.holder == Some(a.t)
        then (if e.pc.Some? then e.pc.value.InHand() else [])
        else s.InFlight()
    ensures s.holder == Some(a.t) ==> a.Advance? && s.InFlight() == s.threads[a.t].InHand()
    ensures s.holder.None? ==> s.InFlight() == []
  {
    LockDiscipline(cfg, s, a);
  }

  /** Outside Flush and Enqueue no step touches the records. */
  lemma QuietStep(cfg: Config, s: State, a: Action)
    requires cfg.Usable() && Enabled(s, a) && Mutex(s.holder, s.threads)
    requires s.holder != Some(a.t) && !(a.Advance? && s.threads[a.t].Enqueueing?)
    ensures var e := Step(cfg, s, a);
      && e.s.pending == s.pending && e.s.delivered == s.delivered
      && e.s.accepted == s.accepted && e.s.dropped == s.dropped
      && (e.pc.Some? ==> e.pc.value.InHand() == [])
  {
  }

  /** Apart from an append, a step leaves the stream literally as it was. */
  lemma StreamKept(cfg: Config, s: State, a: Action)
    requires cfg.Usable() && Enabled(s, a) && Mutex(s.holder, s.threads)
    requires a.Advance? ==> !s.threads[a.t].Enqueueing?
    ensures var s' := Next(cfg, s, a);
      s'.Stream() == s.Stream() && s'.accepted == s.accepted && s'.dropped == s.dropped
  {
    if s.holder == Some(a.t) {
      InFlightAfter(cfg, s, a);
      HolderKeepsStream(cfg, s, a.t, a.sinkOk);
    } else {
      InFlightAfter(cfg, s, a);
      QuietStep(cfg, s, a);
    }
  }

  /** The goroutine inside Flush moves records along without changing their order. */
  lemma HolderKeepsStream(cfg: Config, s: State, t: nat, ok: bool)
    requires cfg.Usable() && t in s.threads && s.threads[t].HoldsFlushLock()
    ensures var e := Region(cfg, s, t, ok);
      e.s.delivered + (if e.pc.Some? then e.pc.value.InHand() else []) + e.s.pending
        == s.delivered + s.threads[t].InHand() + s.pending
    ensures Region(cfg, s, t, ok).s.accepted == s.accepted && Region(cfg, s, t, ok).s.dropped == s.dropped
  {
    match s.threads[t]
    case Looping(c) =>
      if s.pending != [] {
        var k := Take(cfg, s.pending);
        assert s.delivered + [] == s.delivered;
        Reassociate(s.delivered, s.pending[..k], s.pending[k..]);
        assert s.pending[..k] + s.pending[k..] == s.pending;
      }
    case Writing(c, batch) =>
      assert s.delivered + batch + [] == s.delivered + batch;
    case Failed(c, batch) =>
      assert s.delivered + [] == s.delivered;
      Reassociate(s.delivered, batch, s.pending);
    case _ =>
  }

  lemma ConservedKept(cfg: Config, s: State, a: Action)
    requires cfg.Usable() && Mutex(s.holder, s.threads)
    requires Conserved(s.Stream(), s.dropped, s.accepted)
    ensures var s' := Next(cfg, s, a); Conserved(s'.Stream(), s'.dropped, s'.accepted)
  {
    if Enabled(s, a) {
      if a.Advance? && s.threads[a.t].Enqueueing? {
        InFlightAfter(cfg, s, a);
        if !s.stopping {
          AppendConserves(cfg, s.delivered + s.InFlight(), s, s.threads[a.t].rec);
        }
      } else {
        StreamKept(cfg, s, a);
      }
    }
  }

  lemma AppendConserves(cfg: Config, head: seq<Entry>, s: State, rec: Record)
    requires cfg.Usable() && Conserved(head + s.pending, s.dropped, s.accepted)
    ensures var s' := Append(cfg, s, rec).s; Conserved(head + s'.pending, s'.dropped, s'.accepted)
  {
    var all, e := head + s.pending, Entry(|s.accepted|, rec);
    if |s.pending| >= cfg.maxPending {
      var k := |head|;
      assert all[k] == s.pending[0];
      var rest := all[..k] + all[k + 1..];
      assert head + Append(cfg, s, rec).s.pending == rest + [e];
      DropOne(all, k, s.dropped, s.accepted);
      AddLast(rest, e, s.dropped + {s.pending[0].id}, s.accepted);
    } else {
      assert head + Append(cfg, s, rec).s.pending == all + [e];
      AddLast(all, e, s.dropped, s.accepted);
      assert s.dropped + {} == s.dropped;
    }
  }

  lemma DropOne(es: seq<Entry>, k: nat, dropped: set<nat>, accepted: seq<Record>)
    requires k < |es| && Conserved(es, dropped, accepted)
    ensures Conserved(es[..k] + es[k + 1..], dropped + {es[k].id}, accepted)
  {
    var rest := es[..k] + es[k + 1..];
    forall i | 0 <= i < |es| && i != k
      ensures es[i].id in Ids(rest)
    {
      assert rest[if i < k then i else i - 1] == es[i];
    }
    assert Ids(rest) == Ids(es) - {es[k].id};
    assert es[k].id in Ids(es);
  }

  lemma AddLast(es: seq<Entry>, e: Entry, dropped: set<nat>, accepted: seq<Record>)
    requires Conserved(es, dropped, accepted) && e.id == |accepted|
    ensures Conserved(es + [e], dropped, accepted + [e.rec])
  {
    var all := es + [e];
    assert all[|es|] == e;
    forall i | 0 <= i < |es|
      ensures es[i].id in Ids(all) && es[i].id < |accepted|
    {
      assert all[i] == es[i];
      assert es[i].id in Ids(es);
    }
    assert Ids(all) == Ids(es) + {e.id};
    assert e.id !in dropped;
  }

  lemma BoundedKept(cfg: Config, s: State, a: Action)
    requires cfg.Usable() && Mutex(s.holder, s.threads) && Bounded(cfg, |s.pending|, |s.InFlight()|)
    ensures Bounded(cfg, |Next(cfg, s, a).pending|, |Next(cfg, s, a).InFlight()|)
  {
    if Enabled(s, a) {
      if s.holder == Some(a.t) {
        InFlightAfter(cfg, s, a);
        HolderKeepsBound(cfg, s, a.t, a.sinkOk);
      } else if a.Advance? && s.threads[a.t].Enqueueing? {
        InFlightAfter(cfg, s, a);
      } else {
        InFlightAfter(cfg, s, a);
        QuietStep(cfg, s, a);
      }
    }
  }

  lemma HolderKeepsBound(cfg: Config, s: State, t: nat, ok: bool)
    requires cfg.Usable() && t in s.threads && s.threads[t].HoldsFlushLock()
    requires Bounded(cfg, |s.pending|, |s.threads[t].InHand()|)
    ensures var e := Region(cfg, s, t, ok);
      Bounded(cfg, |e.s.pending|, if e.pc.Some? then |e.pc.value.InHand()| else 0)
  {
  }

  /** Goroutines other than the moving one keep their place. */
  lemma OthersStay(threads: Threads, t: nat, pc: Option<Pc>)
    ensures SomeFired(threads) && (t in threads ==> !threads[t].TimerFired?) ==> SomeFired(Place(threads, t, pc))
    ensures SomeAttends(threads) && (t in threads ==> !threads[t].WillAttend()) ==> SomeAttends(Place(threads, t, pc))
    ensures pc.Some? && pc.value.TimerFired? ==> SomeFired(Place(threads, t, pc))
    ensures pc.Some? && pc.value.WillAttend() ==> SomeAttends(Place(threads, t, pc))
  {
    var threads' := Place(threads, t, pc);
    assert forall u :: u in threads && u != t ==> u in threads' && threads'[u] == threads[u];
    assert pc.Some? ==> t in threads' && threads'[t] == pc.value;
  }

  lemma FiredAttends(threads: Threads)
    requires SomeFired(threads)
    ensures SomeAttends(threads)
  {
    var t :| t in threads && threads[t].TimerFired?;
    assert threads[t].WillAttend();
  }

  lemma HandleKept(cfg: Config, s: State, a: Action)
    requires cfg.Usable() && HandleLive(s.timers, s.threads)
    ensures HandleLive(Next(cfg, s, a).timers, Next(cfg, s, a).threads)
  {
    if Enabled(s, a) {
      var e := Step(cfg, s, a);
      OthersStay(s.threads, a.t, e.pc);
      if a.Advance? {
        assert s.threads[a.t].TimerFired? ==> e.s.timers.handle.None?;
        assert e.s.timers == s.timers || e.s.timers == s.timers.Ensure() || e.s.timers.handle.None?;
      }
    }
  }

  /** A goroutine that stops attending leaves an empty queue or a live timer behind. */
  lemma AttendedKept(cfg: Config, s: State, a: Action)
    requires cfg.Usable() && HandleLive(s.timers, s.threads) && Attended(s)
    ensures Attended(Next(cfg, s, a))
  {
    if Enabled(s, a) {
      var e := Step(cfg, s, a);
      OthersStay(s.threads, a.t, e.pc);
      if e.pc.None? || !e.pc.value.WillAttend() {
        if a.Advance? && (s.threads[a.t].Appended? || s.threads[a.t].Rearming?) {
          assert e.s.timers == s.timers.Ensure();
          if SomeFired(s.threads) {
            FiredAttends(Place(s.threads, a.t, e.pc));
          }
        } else {
          assert e.s.pending == [] || (e.s.pending == s.pending && e.s.timers == s.timers);
        }
      }
    }
  }

  lemma StopFirstKept(cfg: Config, s: State, a: Action)
    requires cfg.Usable() && StopFirstSet(s.stopping, s.threads)
    ensures StopFirstSet(Next(cfg, s, a).stopping, Next(cfg, s, a).threads)
  {
    if Enabled(s, a) && !s.stopping && !a.CallStop? {
      var e := Step(cfg, s, a);
      assert e.s.stopping == s.stopping;
      assert e.pc.Some? ==> !e.pc.value.ForStop();
    }
  }

  lemma DrainKept(cfg: Config, s: State, a: Action)
    requires cfg.Usable() && Mutex(s.holder, s.threads)
    requires StopFirstSet(s.stopping, s.threads) && DrainHolds(s)
    ensures DrainHolds(Next(cfg, s, a))
  {
    if Enabled(s, a) {
      InFlightAfter(cfg, s, a);
    }
  }

  lemma StepKeepsInv(cfg: Config, s: State, a: Action)
    requires cfg.Usable() && Inv(cfg, s)
    ensures Inv(cfg, Next(cfg, s, a))
  {
    MutexKept(cfg, s, a);
    ConservedKept(cfg, s, a);
    BoundedKept(cfg, s, a);
    HandleKept(cfg, s, a);
    AttendedKept(cfg, s, a);
    StopFirstKept(cfg, s, a);
    DrainKept(cfg, s, a);
  }

  // ------------------------------------------------------------------ theorems

  lemma {:induction false} RunKeepsInv(cfg: Config, s: State, run: seq<Action>)
    requires cfg.Usable() && Inv(cfg, s)
    ensures Inv(cfg, Exec(cfg, s, run))
  {
    if run == [] {
    } else {
      RunKeepsInv(cfg, s, run[..|run| - 1]);
      StepKeepsInv(cfg, Exec(cfg, s, run[..|run| - 1]), run[|run| - 1]);
    }
  }

  /** Every run, whatever the interleaving and the sink's answers, keeps the invariants. */
  lemma EveryRun(cfg: Config, run: seq<Action>)
    requires cfg.Usable()
    ensures Inv(cfg, Exec(cfg, INIT, run))
  {
    RunKeepsInv(cfg, INIT, run);
  }

  /** A record is dropped only by an append that finds the queue at its cap, and then
      it is the oldest one queued. */
  lemma DropsOnlyWhenFull(cfg: Config, s: State, a: Action)
    requires cfg.Usable() && Next(cfg, s, a).dropped != s.dropped
    ensures |s.pending| >= cfg.maxPending
    ensures Next(cfg, s, a).dropped == s.dropped + {s.pending[0].id}
    ensures Next(cfg, s, a).accepted != s.accepted
  {
    if a.Advance? {
      assert s.threads[a.t].Enqueueing?;
    }
  }

  /** Once Stop has drained the queue nothing is accepted, queued or written again, and
      the sink has every accepted record that was not dropped, once and in order. */
  lemma {:induction false} DrainedForGood(cfg: Config, s: State, more: seq<Action>)
    requires cfg.Usable() && Inv(cfg, s) && s.drained
    ensures var s' := Exec(cfg, s, more);
      && s'.drained && s'.pending == [] && s'.InFlight() == []
      && s'.accepted == s.accepted && s'.delivered == s.delivered && s'.dropped == s.dropped
    ensures Conserved(s.delivered, s.dropped, s.accepted)
  {
    assert s.Stream() == s.delivered;
    if more == [] {
    } else {
      var front := more[..|more| - 1];
      DrainedForGood(cfg, s, front);
      RunKeepsInv(cfg, s, front);
      var last := Exec(cfg, s, front);
      StepKeepsInv(cfg, last, more[|more| - 1]);
      DrainedStep(cfg, last, more[|more| - 1]);
    }
  }

  lemma DrainedStep(cfg: Config, s: State, a: Action)
    requires cfg.Usable() && Inv(cfg, s) && s.drained
    ensures var s' := Next(cfg, s, a);
      s'.drained && s'.accepted == s.accepted && s'.delivered == s.delivered && s'.dropped == s.dropped
  {
    if a.Advance? && Enabled(s, a) && s.threads[a.t].Writing? {
      assert s.threads[a.t].batch == s.InFlight() == [];
      assert s.delivered + [] == s.delivered;
    }
  }

  /** With no overflow, a conserved and emptied buffer has handed over exactly the
      accepted sequence. */
  lemma {:induction false} NothingMissing(es: seq<Entry>, accepted: seq<Record>, i: nat)
    requires Conserved(es, {}, accepted) && i < |es|
    ensures es[i].id == i && |es| == |accepted| && es[i].rec == accepted[i]
  {
    IdsFollowPositions(es, i);
    ByPosition(es, accepted, i);
    if |es| < |accepted| {
      assert |es| in Ids(es);
      var j :| 0 <= j < |es| && es[j].id == |es|;
      ByPosition(es, accepted, j);
    }
    ByPosition(es, accepted, |es| - 1);
  }

  lemma {:induction false} IdsFollowPositions(es: seq<Entry>, i: nat)
    requires Increasing(es) && i < |es|
    ensures es[i].id >= i
  {
    if i > 0 {
      IdsFollowPositions(es, i - 1);
    }
  }

  lemma {:induction false} ByPosition(es: seq<Entry>, accepted: seq<Record>, i: nat)
    requires Conserved(es, {}, accepted) && i < |es|
    ensures es[i].id == i
  {
    IdsFollowPositions(es, i);
    if i > 0 {
      ByPosition(es, accepted, i - 1);
    }
    if es[i].id > i {
      assert i in Ids(es);
      var j :| 0 <= j < |es| && es[j].id == i;
    }
  }

  // ------------------------------------------------------------- longer runs

  lemma {:induction false} ExecConcat(cfg: Config, s: State, a: seq<Action>, b: seq<Action>)
    requires cfg.Usable()
    ensures Exec(cfg, s, a + b) == Exec(cfg, Exec(cfg, s, a), b)
  {
    if b == [] {
      assert a + b == a;
    } else {
      assert (a + b)[..|a + b| - 1] == a + b[..|b| - 1];
      ExecConcat(cfg, s, a, b[..|b| - 1]);
    }
  }

  /** One more step in front of a run. */
  lemma ExecCons(cfg: Config, s: State, a: Action, rest: seq<Action>)
    requires cfg.Usable()
    ensures Exec(cfg, s, [a] + rest) == Exec(cfg, Next(cfg, s, a), rest)
  {
    ExecConcat(cfg, s, [a], rest);
    assert [a][..0] == [];
    assert Exec(cfg, s, [a]) == Next(cfg, Exec(cfg, s, []), a);
  }

  // ------------------------------------------------ when maxPending is the bound

  /** A failed batch goes back to a queue without room for it. */
  predicate Overfills(cfg: Config, s: State, a: Action) {
    && a.Advance? && a.t in s.threads && s.threads[a.t].Failed?
    && |s.threads[a.t].batch| + |s.pending| > cfg.maxPending
  }

  lemma OnlyOverfillsExceed(cfg: Config, s: State, a: Action)
    requires cfg.Usable() && |s.pending| <= cfg.maxPending
    ensures |Next(cfg, s, a).pending| > cfg.maxPending <==> Overfills(cfg, s, a)
  {
  }

  /** In every state that the run passes through. */
  predicate WithinCap(cfg: Config, run: seq<Action>)
    requires cfg.Usable()
  {
    && |Exec(cfg, INIT, run).pending| <= cfg.maxPending
    && (run != [] ==> WithinCap(cfg, run[..|run| - 1]))
  }

  /** At no step of the run. */
  predicate NoOverfill(cfg: Config, run: seq<Action>)
    requires cfg.Usable()
  {
    run != [] ==>
      && NoOverfill(cfg, run[..|run| - 1])
      && !Overfills(cfg, Exec(cfg, INIT, run[..|run| - 1]), run[|run| - 1])
  }

  /** MaxPending caps the queue throughout a run exactly when no failed batch of the run goes
      back to a queue without room for it. */
  lemma {:induction false} MaxPendingCapsIff(cfg: Config, run: seq<Action>)
    requires cfg.Usable()
    ensures WithinCap(cfg, run) <==> NoOverfill(cfg, run)
  {
    if run != [] {
      MaxPendingCapsIff(cfg, run[..|run| - 1]);
      if WithinCap(cfg, run[..|run| - 1]) {
        OnlyOverfillsExceed(cfg, Exec(cfg, INIT, run[..|run| - 1]), run[|run| - 1]);
      }
    }
  }

  ghost predicate NoneFailed(threads: Threads) { forall t :: t in threads ==> !threads[t].Failed? }

  /** In particular while the sink accepts every batch. */
  lemma {:induction false} AcceptingSinkKeepsCap(cfg: Config, run: seq<Action>)
    requires cfg.Usable() && forall i :: 0 <= i < |run| && run[i].Advance? ==> run[i].sinkOk
    ensures |Exec(cfg, INIT, run).pending| <= cfg.maxPending && NoneFailed(Exec(cfg, INIT, run).threads)
  {
    if run != [] {
      AcceptingSinkKeepsCap(cfg, run[..|run| - 1]);
      OnlyOverfillsExceed(cfg, Exec(cfg, INIT, run[..|run| - 1]), run[|run| - 1]);
    }
  }

  // ----------------------------------------------------- the bound is the real one

  ghost predicate CanFill(cfg: Config, s: State)
    requires cfg.Usable()
  {
    exists run :: |Exec(cfg, s, run).pending| == cfg.maxPending + cfg.batchSize
  }

  lemma FillAfter(cfg: Config, s: State, a: Action)
    requires cfg.Usable() && CanFill(cfg, Next(cfg, s, a))
    ensures CanFill(cfg, s)
  {
    var run :| |Exec(cfg, Next(cfg, s, a), run).pending| == cfg.maxPending + cfg.batchSize;
    ExecCons(cfg, s, a, run);
  }

  function Two(cfg: Config, s: State, a1: Action, a2: Action): State
    requires cfg.Usable()
  {
    Next(cfg, Next(cfg, s, a1), a2)
  }

  lemma FillAfterTwo(cfg: Config, s: State, a1: Action, a2: Action)
    requires cfg.Usable() && CanFill(cfg, Two(cfg, s, a1, a2))
    ensures CanFill(cfg, s)
  {
    FillAfter(cfg, Next(cfg, s, a1), a2);
    FillAfter(cfg, s, a1);
  }

  lemma TwoKeepInv(cfg: Config, s: State, a1: Action, a2: Action)
    requires cfg.Usable() && Inv(cfg, s)
    ensures Inv(cfg, Two(cfg, s, a1, a2))
  {
    StepKeepsInv(cfg, s, a1);
    StepKeepsInv(cfg, Next(cfg, s, a1), a2);
  }

  /** A producer's call up to the end of its append. */
  lemma ProduceAppends(cfg: Config, s: State, n: nat)
    requires cfg.Usable() && !s.stopping && n !in s.threads
    ensures var s' := Two(cfg, s, Produce(n, 0), Advance(n, true));
      && s'.pending == Admit(cfg.maxPending, s.pending, Entry(|s.accepted|, 0))
      && s'.threads == s.threads[n := Appended(|s'.pending|)]
      && s'.holder == s.holder && !s'.stopping
  {
    var s1 := Next(cfg, s, Produce(n, 0));
    assert s1 == s.(threads := s.threads[n := Enqueueing(0)]);
    assert s.threads[n := Enqueueing(0)][n := Appended(|Admit(cfg.maxPending, s.pending, Entry(|s.accepted|, 0))|)]
        == s.threads[n := Appended(|Admit(cfg.maxPending, s.pending, Entry(|s.accepted|, 0))|)];
  }

  /** A failing sink call up to the requeue. */
  lemma FailRequeues(cfg: Config, s: State, t: nat)
    requires cfg.Usable() && t in s.threads && s.threads[t].Writing?
    ensures var s' := Two(cfg, s, Advance(t, false), Advance(t, false));
      && s'.pending == s.threads[t].batch + s.pending
      && s'.threads == s.threads[t := Rearming(s.threads[t].caller)]
      && s'.holder == s.holder && s'.stopping == s.stopping
  {
  }

  /** While the sink call of t hangs, producers refill the queue up to its cap; then the
      call fails, the batch goes back in front, and a next round can do the same. */
  lemma {:induction false} RefillThenFail(cfg: Config, s: State, t: nat, n: nat)
    requires cfg.Usable() && Inv(cfg, s) && !s.stopping && s.holder == Some(t)
    requires s.threads[t].Writing? && s.threads[t].batch != [] && s.threads[t].caller == Detached
    requires forall u :: u in s.threads ==> u < n
    ensures CanFill(cfg, s)
    decreases cfg.batchSize - |s.threads[t].batch|, cfg.maxPending - |s.pending|
  {
    if |s.pending| < cfg.maxPending {
      ProduceAppends(cfg, s, n);
      TwoKeepInv(cfg, s, Produce(n, 0), Advance(n, true));
      RefillThenFail(cfg, Two(cfg, s, Produce(n, 0), Advance(n, true)), t, n + 1);
      FillAfterTwo(cfg, s, Produce(n, 0), Advance(n, true));
    } else {
      var a := Advance(t, false);
      var s' := Two(cfg, s, a, a);
      FailRequeues(cfg, s, t);
      TwoKeepInv(cfg, s, a, a);
      if |s'.pending| == cfg.maxPending + cfg.batchSize {
        assert Exec(cfg, s', []) == s';
      } else {
        StepKeepsInv(cfg, s', a);
        StartFlush(cfg, Next(cfg, s', a), n, |s.threads[t].batch|);
        FillAfter(cfg, s', a);
      }
      FillAfterTwo(cfg, s, a, a);
    }
  }

  /** A flush goroutine up to its sink call. */
  lemma FlushTakes(cfg: Config, s: State, n: nat)
    requires cfg.Usable() && s.holder.None? && n !in s.threads && s.pending != []
    ensures var a, k := Advance(n, true), Take(cfg, s.pending);
      var s' := Two(cfg, Two(cfg, s, CallFlush(n), a), a, a);
      && s'.threads == s.threads[n := Writing(Detached, s.pending[..k])]
      && s'.holder == Some(n) && s'.stopping == s.stopping
  {
    var s2 := Two(cfg, s, CallFlush(n), Advance(n, true));
    assert s2.threads == s.threads[n := Clearing(Detached)] && s2.pending == s.pending;
  }

  lemma {:induction false} StartFlush(cfg: Config, s: State, n: nat, size: nat)
    requires cfg.Usable() && Inv(cfg, s) && !s.stopping && s.holder.None?
    requires |s.pending| > size && size < cfg.batchSize
    requires forall u :: u in s.threads ==> u < n
    ensures CanFill(cfg, s)
    decreases cfg.batchSize - size, -1
  {
    var a0, a := CallFlush(n), Advance(n, true);
    FlushTakes(cfg, s, n);
    TwoKeepInv(cfg, s, a0, a);
    TwoKeepInv(cfg, Two(cfg, s, a0, a), a, a);
    RefillThenFail(cfg, Two(cfg, Two(cfg, s, a0, a), a, a), n, n + 1);
    FillAfterTwo(cfg, Two(cfg, s, a0, a), a, a);
    FillAfterTwo(cfg, s, a0, a);
  }

  /** For every configuration some run makes the queue itself hold maxPending + batchSize
      records, so maxPending alone is not a bound and the proved one cannot be improved. */
  lemma BoundIsReached(cfg: Config)
    requires cfg.Usable()
    ensures exists run :: |Exec(cfg, INIT, run).pending| == cfg.maxPending + cfg.batchSize
  {
    var a1, a2 := Produce(0, 0), Advance(0, true);
    EveryRun(cfg, []);
    ProduceAppends(cfg, INIT, 0);
    TwoKeepInv(cfg, INIT, a1, a2);
    StartFlush(cfg, Two(cfg, INIT, a1, a2), 1, 0);
    FillAfterTwo(cfg, INIT, a1, a2);
  }
}
