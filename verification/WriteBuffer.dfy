/** The batched queue of internal/repository/write_buffer.go: configuration, the
    effect of each lock-protected region, and the buffer as one caller sees it.
    The interleaved protocol over the same regions is in WriteBufferRuns. */
module WriteBuffer {
  import opened Common

  /** Flush tuning; durations are in milliseconds. */
  datatype Config = Config(flushInterval: int, batchSize: int, maxPending: int, writeTimeout: int) {

    /** Each non-positive setting falls back to its production default on its own. */
    function WithDefaults(): (c: Config)
      ensures c.Usable()
      ensures c.flushInterval == if flushInterval >= 1 then flushInterval else 250
      ensures c.batchSize == if batchSize >= 1 then batchSize else 200
      ensures c.maxPending == if maxPending >= 1 then maxPending else 5000
      ensures c.writeTimeout == if writeTimeout >= 1 then writeTimeout else 10000
    {
      Config(
        if flushInterval <= 0 then DEFAULTS.flushInterval else flushInterval,
        if batchSize <= 0 then DEFAULTS.batchSize else batchSize,
        if maxPending <= 0 then DEFAULTS.maxPending else maxPending,
        if writeTimeout <= 0 then DEFAULTS.writeTimeout else writeTimeout)
    }

    predicate Usable() {
      flushInterval >= 1 && batchSize >= 1 && maxPending >= 1 && writeTimeout >= 1
    }
  }

  const DEFAULTS := Config(250, 200, 5000, 10000)

  /** `handle` is the buffer's timer field; `armed` are the runtime timers that can
      still fire. The two differ: a fired callback clears whatever handle it finds. */
  datatype Timers = Timers(handle: Option<nat>, armed: set<nat>, next: nat) {

    function Ensure(): Timers {
      if handle.Some? then this else Timers(Some(next), armed + {next}, next + 1)
    }

    function Clear(): Timers {
      match handle
      case Some(id) => Timers(None, armed - {id}, next)
      case None => this
    }
  }

  const NO_TIMERS := Timers(None, {}, 0)

  /** The queue after one admission: at capacity the oldest record goes first. */
  function Admit<T>(max: nat, q: seq<T>, x: T): seq<T>
    requires max >= 1
  {
    (if |q| >= max then q[1..] else q) + [x]
  }

  /** How many records one flush round takes. */
  function Take<T>(cfg: Config, q: seq<T>): (k: nat)
    requires cfg.Usable()
    ensures k <= |q| && k <= cfg.batchSize
    ensures q != [] ==> k >= 1
    ensures k == |q| || k == cfg.batchSize
  {
    if cfg.batchSize > |q| then |q| else cfg.batchSize
  }

  /** A flush of `q` from its n-th sink call on: the batches written, and what is left. */
  function Flushed<T>(cfg: Config, q: seq<T>, accepts: nat -> bool, n: nat): (seq<seq<T>>, seq<T>)
    requires cfg.Usable()
    decreases |q|
  {
    if q == [] || !accepts(n) then ([], q)
    else
      var k := Take(cfg, q);
      var (written, rest) := Flushed(cfg, q[k..], accepts, n + 1);
      ([q[..k]] + written, rest)
  }

  /** The timers after a flush: none is armed for the queue unless something is left in it. */
  function TimersAfter(timers: Timers, left: bool): Timers {
    if left then timers.Clear().Ensure() else timers.Clear()
  }

  /** A flush of `whole` that has written so much and goes on with `q`. */
  ghost predicate Onward<T>(cfg: Config, whole: seq<T>, accepts: nat -> bool, written: seq<seq<T>>, q: seq<T>)
    requires cfg.Usable()
  {
    var (more, rest) := Flushed(cfg, q, accepts, |written|);
    Flushed(cfg, whole, accepts, 0) == (written + more, rest)
  }

  lemma OnwardStart<T>(cfg: Config, whole: seq<T>, accepts: nat -> bool)
    requires cfg.Usable()
    ensures Onward(cfg, whole, accepts, [], whole)
  {
    var more := Flushed(cfg, whole, accepts, 0).0;
    assert [] + more == more;
  }

  lemma OnwardBatch<T>(cfg: Config, whole: seq<T>, accepts: nat -> bool, written: seq<seq<T>>, q: seq<T>)
    requires cfg.Usable() && Onward(cfg, whole, accepts, written, q) && q != [] && accepts(|written|)
    ensures var k := Take(cfg, q); Onward(cfg, whole, accepts, written + [q[..k]], q[k..])
  {
    var k := Take(cfg, q);
    var more := Flushed(cfg, q[k..], accepts, |written| + 1).0;
    assert written + ([q[..k]] + more) == written + [q[..k]] + more;
  }

  lemma OnwardEnd<T>(cfg: Config, whole: seq<T>, accepts: nat -> bool, written: seq<seq<T>>, q: seq<T>)
    requires cfg.Usable() && Onward(cfg, whole, accepts, written, q) && (q == [] || !accepts(|written|))
    ensures Flushed(cfg, whole, accepts, 0) == (written, q)
    ensures Flat(written) + q == whole && Batches(written, accepts, cfg.batchSize)
  {
    assert written + [] == written;
    FlushedMeaning(cfg, whole, accepts, 0);
    SplitsInBatches(cfg, whole, accepts, written, q);
  }

  lemma SplitsInBatches<T>(cfg: Config, q: seq<T>, accepts: nat -> bool, written: seq<seq<T>>, rest: seq<T>)
    requires Splits(cfg, q, accepts, 0, written, rest)
    ensures Flat(written) + rest == q && Batches(written, accepts, cfg.batchSize)
  {
  }

  /** What is written and what is left make up the queue; batches are accepted and full, but
      for the last of a flush that leaves nothing. */
  ghost predicate Splits<T>(cfg: Config, q: seq<T>, accepts: nat -> bool, n: nat, written: seq<seq<T>>, rest: seq<T>) {
    && Flat(written) + rest == q
    && (forall i :: n <= i < n + |written| ==> accepts(i))
    && (forall i :: 0 <= i < |written| ==> 1 <= |written[i]| <= cfg.batchSize)
    && (forall i :: 0 <= i < |written| && (i < |written| - 1 || rest != []) ==> |written[i]| == cfg.batchSize)
    && (rest != [] ==> !accepts(n + |written|))
  }

  lemma {:induction false} FlushedMeaning<T>(cfg: Config, q: seq<T>, accepts: nat -> bool, n: nat)
    requires cfg.Usable()
    ensures var (written, rest) := Flushed(cfg, q, accepts, n); Splits(cfg, q, accepts, n, written, rest)
    decreases |q|
  {
    if q != [] && accepts(n) {
      var k := Take(cfg, q);
      var (more, rest) := Flushed(cfg, q[k..], accepts, n + 1);
      FlushedMeaning(cfg, q[k..], accepts, n + 1);
      BatchInFront(cfg, q[..k], q[k..], accepts, n, more, rest);
      assert q[..k] + q[k..] == q;
    }
  }

  lemma BatchInFront<T>(cfg: Config, batch: seq<T>, q: seq<T>, accepts: nat -> bool, n: nat,
                        more: seq<seq<T>>, rest: seq<T>)
    requires Splits(cfg, q, accepts, n + 1, more, rest) && accepts(n)
    requires 1 <= |batch| <= cfg.batchSize && (q == [] || |batch| == cfg.batchSize) && (q == [] ==> more == [])
    ensures Splits(cfg, batch + q, accepts, n, [batch] + more, rest)
  {
    FlatConcat([batch], more);
    FlatSnoc([], batch);
    assert [] + [batch] == [batch] && [] + batch == batch;
    Reassociate(batch, Flat(more), rest);
  }

  /** Every batch was accepted and within the limit, and only the last may be short. */
  ghost predicate Batches<T>(written: seq<seq<T>>, accepts: nat -> bool, limit: int) {
    && (forall i :: 0 <= i < |written| ==> accepts(i) && 1 <= |written[i]| <= limit)
    && (written != [] ==> Full(written[..|written| - 1], limit))
  }

  ghost predicate Full<T>(written: seq<seq<T>>, limit: int) {
    forall i :: 0 <= i < |written| ==> |written[i]| == limit
  }

  /** The batches of one flush, then those of a second. */
  ghost predicate TwoPasses<T>(written: seq<seq<T>>, cut: nat, first: nat -> bool, second: nat -> bool, limit: int) {
    cut <= |written| && Batches(written[..cut], first, limit) && Batches(written[cut..], second, limit)
  }

  lemma JoinPasses<T>(a: seq<seq<T>>, b: seq<seq<T>>, first: nat -> bool, second: nat -> bool, limit: int)
    requires Batches(a, first, limit) && Batches(b, second, limit)
    ensures TwoPasses(a + b, |a|, first, second, limit)
  {
    assert (a + b)[..|a|] == a && (a + b)[|a|..] == b;
  }

  lemma Reassociate<T>(a: seq<T>, b: seq<T>, c: seq<T>)
    ensures (a + b) + c == a + (b + c)
  {
  }

  class Buffer<T> {
    const config: Config
    var pending: seq<T>
    var stopping: bool
    var stopped: bool      // the sync.Once around Stop
    var timers: Timers

    constructor (cfg: Config)
      ensures config == cfg.WithDefaults()
      ensures pending == [] && !stopping && !stopped && timers == NO_TIMERS
    {
      config := cfg.WithDefaults();
      pending, stopping, stopped, timers := [], false, false, NO_TIMERS;
    }

    /** Queues `rec`. `flushNow` tells that the queue reached the batch size, so a
        flush goroutine is started instead of the timer. */
    method Enqueue(rec: T) returns (flushNow: bool)
      requires config.Usable()
      modifies this`pending, this`timers
      ensures stopping ==> pending == old(pending) && timers == old(timers) && !flushNow
      ensures !stopping ==> pending == Admit(config.maxPending, old(pending), rec)
      ensures !stopping ==> flushNow == (|pending| >= config.batchSize)
      ensures !stopping ==> timers == if flushNow then old(timers) else old(timers).Ensure()
    {
      if stopping {
        return false;
      }
      if |pending| >= config.maxPending {
        pending := pending[1..];
      }
      pending := pending + [rec];
      if |pending| >= config.batchSize {
        return true;
      }
      EnsureTimer();
      return false;
    }

    method EnsureTimer()
      modifies this`timers
      ensures timers == old(timers).Ensure()
      ensures timers.handle.Some? && (old(timers).handle.Some? ==> timers == old(timers))
      ensures old(timers).handle.None? ==> timers.armed == old(timers).armed + {timers.handle.value}
    {
      if timers.handle.Some? {
        return;
      }
      timers := Timers(Some(timers.next), timers.armed + {timers.next}, timers.next + 1);
    }

    method ClearTimer()
      modifies this`timers
      ensures timers == old(timers).Clear()
      ensures timers.handle.None?
      ensures old(timers).handle.Some? ==> old(timers).handle.value !in timers.armed
    {
      if timers.handle.Some? {
        timers := Timers(None, timers.armed - {timers.handle.value}, timers.next);
      }
    }

    /** The locked region that moves the next batch out of the queue. */
    method TakeBatch() returns (batch: seq<T>)
      requires config.Usable() && pending != []
      modifies this`pending
      ensures batch == old(pending)[..Take(config, old(pending))]
      ensures batch + pending == old(pending)
      ensures |pending| < |old(pending)|
    {
      var take := config.batchSize;
      if take > |pending| {
        take := |pending|;
      }
      batch := pending[..take];
      pending := pending[take..];
    }

    /** Drains the queue into the sink, whose n-th answer is `accepts(n)`. What was
        written, followed by what is still queued, is exactly the old queue. */
    method Flush(accepts: nat -> bool) returns (written: seq<seq<T>>, failed: bool)
      requires config.Usable()
      modifies this`pending, this`timers
      ensures Flat(written) + pending == old(pending)
      ensures Batches(written, accepts, config.batchSize)
      ensures failed ==> pending != [] && !accepts(|written|) && timers == old(timers).Clear().Ensure()
      ensures !failed ==> pending == [] && timers == old(timers).Clear()
      ensures (written, pending) == Flushed(config, old(pending), accepts, 0)
    {
      ClearTimer();
      written := [];
      ghost var whole := pending;
      OnwardStart(config, whole, accepts);
      while pending != []
        invariant Onward(config, whole, accepts, written, pending)
        invariant timers == old(timers).Clear()
        decreases |pending|
      {
        ghost var queued := pending;
        var batch := TakeBatch();
        if !accepts(|written|) {
          pending := batch + pending;
          assert pending == queued;
          OnwardEnd(config, whole, accepts, written, queued);
          EnsureTimer();
          return written, true;
        }
        OnwardBatch(config, whole, accepts, written, queued);
        written := written + [batch];
      }
      OnwardEnd(config, whole, accepts, written, pending);
      return written, false;
    }

    /** Refuses further records and drains in at most two flushes, the first of which wrote
        `cut` batches; only the first call does anything. */
    method Stop(first: nat -> bool, second: nat -> bool) returns (written: seq<seq<T>>, ghost cut: nat)
      requires config.Usable()
      modifies this
      ensures stopped && (stopping || old(stopped))
      ensures old(stopped) ==> written == [] && pending == old(pending) && timers == old(timers)
      ensures !old(stopped) ==> Drained(written, cut, first, second, config.batchSize, pending, old(pending))
      ensures !old(stopped) && pending != [] ==> timers.handle.Some?
      ensures !old(stopped) ==>
        (Flat(written), pending, timers) == StopResult(config, old(pending), old(timers).Clear(), first, second)
    {
      if stopped {
        return [], 0;
      }
      stopped := true;
      stopping := true;
      ClearTimer();
      written, cut := Drain(first, second);
    }

    /** The second flush only if the first left something behind. */
    method Drain(first: nat -> bool, second: nat -> bool) returns (written: seq<seq<T>>, ghost cut: nat)
      requires config.Usable()
      modifies this`pending, this`timers
      ensures Drained(written, cut, first, second, config.batchSize, pending, old(pending))
      ensures pending != [] ==> timers.handle.Some?
      ensures (Flat(written), pending, timers) == StopResult(config, old(pending), old(timers), first, second)
    {
      var failed;
      written, failed := Flush(first);
      cut := |written|;
      var more := [];
      ghost var left := pending;
      if |pending| > 0 {
        more, failed := Flush(second);
      }
      FlatConcat(written, more);
      assert Flat(written) + [] == Flat(written);
      JoinDrains(written, more, first, second, config.batchSize, pending, left, old(pending));
      written := written + more;
    }
  }

  /** The records written by Stop's flushes, what is left, and the timers, from those after its
      own clearTimer; the second flush only if the first left something. */
  function StopResult<T>(cfg: Config, q: seq<T>, timers: Timers, first: nat -> bool, second: nat -> bool)
    : (seq<T>, seq<T>, Timers)
    requires cfg.Usable()
  {
    var (one, left) := Flushed(cfg, q, first, 0);
    var after := TimersAfter(timers, left != []);
    if left == [] then (Flat(one), left, after)
    else
      var (two, rest) := Flushed(cfg, left, second, 0);
      (Flat(one) + Flat(two), rest, TimersAfter(after, rest != []))
  }

  /** Two passes over `whole` that left `rest`: each goes on until its sink refuses. */
  ghost predicate Drained<T>(written: seq<seq<T>>, cut: nat, first: nat -> bool, second: nat -> bool, limit: int,
                             rest: seq<T>, whole: seq<T>)
  {
    && Flat(written) + rest == whole
    && TwoPasses(written, cut, first, second, limit)
    && (cut < |written| ==> !first(cut))
    && (rest != [] ==> !first(cut) && !second(|written| - cut))
  }

  lemma JoinDrains<T>(a: seq<seq<T>>, b: seq<seq<T>>, first: nat -> bool, second: nat -> bool, limit: int,
                      rest: seq<T>, left: seq<T>, whole: seq<T>)
    requires Batches(a, first, limit) && Flat(a) + left == whole && (left != [] ==> !first(|a|))
    requires Batches(b, second, limit) && Flat(b) + rest == left && (rest != [] ==> !second(|b|))
    requires b != [] || rest != [] ==> left != []
    ensures Drained(a + b, |a|, first, second, limit, rest, whole)
  {
    JoinPasses(a, b, first, second, limit);
    FlatConcat(a, b);
    Reassociate(Flat(a), Flat(b), rest);
  }

  lemma {:induction false} FlatConcat<T>(a: seq<seq<T>>, b: seq<seq<T>>)
    ensures Flat(a + b) == Flat(a) + Flat(b)
  {
    if b == [] {
      assert a + b == a;
    } else {
      var front, last := b[..|b| - 1], b[|b| - 1];
      FlatConcat(a, front);
      assert (a + b)[..|a + b| - 1] == a + front;
      Reassociate(Flat(a), Flat(front), last);
    }
  }
}
