/** One account's circuit breaker (internal/service/health/tracker.go) as a fold over
    its event history, and what that fold means in terms of the history alone. */
module Breaker {
  import opened Common

  datatype Config = Config(failureThreshold: int, openDuration: int, halfOpenSuccessThreshold: int) {
    predicate Disabled() { failureThreshold <= 0 }

    predicate IsZero() { failureThreshold == 0 && openDuration == 0 && halfOpenSuccessThreshold == 0 }

    /** Successes that close the breaker: the code closes on the first one when the
        setting is below 1. */
    function Closes(): (h: int)
      ensures h >= 1 && h >= halfOpenSuccessThreshold
      ensures h == 1 || h == halfOpenSuccessThreshold
    {
      if halfOpenSuccessThreshold < 1 then 1 else halfOpenSuccessThreshold
    }
  }

  datatype CircuitState = Closed | Open | HalfOpen

  /** The zero time. */
  const ZERO: int := 0

  datatype Circuit = Circuit(
    state: CircuitState, failureCount: int, lastFailure: int, openUntil: int, halfOpenSuccess: int)

  const FRESH := Circuit(Closed, 0, ZERO, ZERO, 0)

  datatype Transition = Transition(
    account: int, from: CircuitState, to: CircuitState, failureCount: int, reason: Option<string>, at: int)

  /** The tracker's operations. Check carries the three clock readings IsAvailable can
      make, in the order it makes them. */
  datatype Event =
    | Check(coolNow: int, openNow: int, at: int)
    | Success(at: int)
    | Failure(now: int, reason: string)
    | Cooldown(until: int, now: int)
    | Reset

  /** An event together with the configuration in force when it happened. */
  datatype Item = Item(cfg: Config, ev: Event)

  /** Everything the tracker keeps about one account, and what it emitted for it. */
  datatype Account = Account(circuit: Circuit, cooldown: Option<int>, log: seq<Transition>) {

    function Emit(id: int, from: CircuitState, reason: Option<string>, at: int): Account {
      if circuit.state == from then this
      else this.(log := log + [Transition(id, from, circuit.state, circuit.failureCount, reason, at)])
    }

    predicate CoolingAt(now: int) { cooldown.Some? && now < cooldown.value }
  }

  const NEW := Account(FRESH, None, [])

  function AfterSuccess(cfg: Config, c: Circuit): Circuit {
    match c.state
    case Closed => c.(failureCount := 0, lastFailure := ZERO)
    case HalfOpen =>
      if c.halfOpenSuccess + 1 >= cfg.halfOpenSuccessThreshold then FRESH
      else c.(halfOpenSuccess := c.halfOpenSuccess + 1)
    case Open =>
      if 1 >= cfg.halfOpenSuccessThreshold then FRESH.(lastFailure := c.lastFailure)
      else c.(state := HalfOpen, halfOpenSuccess := 1)
  }

  function AfterFailure(cfg: Config, c: Circuit, now: int): Circuit {
    var d := c.(failureCount := c.failureCount + 1, lastFailure := now);
    match c.state
    case Closed =>
      if d.failureCount >= cfg.failureThreshold
      then d.(state := Open, openUntil := now + cfg.openDuration, halfOpenSuccess := 0) else d
    case HalfOpen => d.(state := Open, openUntil := now + cfg.openDuration, halfOpenSuccess := 0)
    case Open => d.(openUntil := now + cfg.openDuration)
  }

  /** The account after one event; Check's answer is Answers below. */
  function Apply(id: int, a: Account, i: Item): Account {
    match i.ev
    case Check(coolNow, openNow, at) =>
      if a.CoolingAt(coolNow) then a
      else
        var b := a.(cooldown := None);
        if i.cfg.Disabled() || a.circuit.state != Open || openNow <= a.circuit.openUntil then b
        else b.(circuit := a.circuit.(state := HalfOpen, halfOpenSuccess := 0)).Emit(id, Open, None, at)
    case Success(at) =>
      if i.cfg.Disabled() then a
      else a.(circuit := AfterSuccess(i.cfg, a.circuit)).Emit(id, a.circuit.state, None, at)
    case Failure(now, reason) =>
      if i.cfg.Disabled() then a
      else a.(circuit := AfterFailure(i.cfg, a.circuit, now)).Emit(id, a.circuit.state, Some(reason), now)
    case Cooldown(until, now) =>
      a.(cooldown := if until == ZERO || until <= now then None else Some(until))
    case Reset => a.(circuit := FRESH)
  }

  /** What IsAvailable answers before applying its side effect. */
  predicate Answers(a: Account, cfg: Config, coolNow: int, openNow: int) {
    !a.CoolingAt(coolNow) && (cfg.Disabled() || a.circuit.state != Open || openNow > a.circuit.openUntil)
  }

  function Fold(id: int, h: seq<Item>): Account {
    if h == [] then NEW else Apply(id, Fold(id, h[..|h| - 1]), h[|h| - 1])
  }

  // ------------------------------------------------ the history, read on its own

  /** Failures since the last success or reset, after the first n events. */
  function FailsAt(h: seq<Item>, n: nat): nat
    requires n <= |h|
  {
    if n == 0 then 0
    else
      match h[n - 1].ev
      case Failure(_, _) => FailsAt(h, n - 1) + 1
      case Success(_) => 0
      case Reset => 0
      case _ => FailsAt(h, n - 1)
  }

  /** Successes since the last failure or reset, after the first n events. */
  function SuccessesAt(h: seq<Item>, n: nat): nat
    requires n <= |h|
  {
    if n == 0 then 0
    else
      match h[n - 1].ev
      case Success(_) => SuccessesAt(h, n - 1) + 1
      case Failure(_, _) => 0
      case Reset => 0
      case _ => SuccessesAt(h, n - 1)
  }

  function FailStreak(h: seq<Item>): nat { FailsAt(h, |h|) }

  function SuccessStreak(h: seq<Item>): nat { SuccessesAt(h, |h|) }

  /** Later events do not change what the first n say. */
  lemma {:induction false} PrefixStreaks(h: seq<Item>, e: Item, n: nat)
    requires n <= |h|
    ensures FailsAt(h + [e], n) == FailsAt(h, n) && SuccessesAt(h + [e], n) == SuccessesAt(h, n)
  {
    if n > 0 {
      PrefixStreaks(h, e, n - 1);
      assert (h + [e])[n - 1] == h[n - 1];
    }
  }

  /** The instant of the latest failure, ZERO when there is none. */
  function LastFailureAt(h: seq<Item>): int {
    if h == [] then ZERO
    else if h[|h| - 1].ev.Failure? then h[|h| - 1].ev.now
    else LastFailureAt(h[..|h| - 1])
  }

  /** At some point the failure streak reached the threshold, and since then there was
      no reset and never enough successes in a row. */
  ghost predicate Tripped(cfg: Config, h: seq<Item>) {
    exists i :: 0 <= i <= |h| && TrippedSince(cfg, h, i)
  }

  ghost predicate TrippedSince(cfg: Config, h: seq<Item>, i: nat)
    requires i <= |h|
  {
    && FailsAt(h, i) >= cfg.failureThreshold
    && (forall j :: i <= j < |h| ==> h[j].ev != Reset)
    && (forall j :: i <= j <= |h| ==> SuccessesAt(h, j) < cfg.Closes())
  }

  ghost predicate FixedConfig(cfg: Config, h: seq<Item>) {
    cfg.failureThreshold >= 1 && forall i :: 0 <= i < |h| ==> h[i].cfg == cfg
  }

  /** How one more event changes Tripped. */
  lemma TrippedStep(cfg: Config, h: seq<Item>, e: Item)
    requires !cfg.Disabled()
    ensures Tripped(cfg, h + [e]) <==> TrippedNext(cfg, h, e)
  {
    var g := h + [e];
    PrefixStreaks(h, e, |h|);
    if Tripped(cfg, g) {
      var i :| 0 <= i <= |g| && TrippedSince(cfg, g, i);
      if i <= |h| {
        SincePrefix(cfg, h, e, i);
      } else if !e.ev.Failure? {
        StreaksExclude(h, |h|);
        assert TrippedSince(cfg, h, |h|);
      }
    }
    if Tripped(cfg, h) {
      var i :| 0 <= i <= |h| && TrippedSince(cfg, h, i);
      SincePrefix(cfg, h, e, i);
    }
    if e.ev.Failure? && FailStreak(h) + 1 >= cfg.failureThreshold {
      assert TrippedSince(cfg, g, |g|);
    }
  }

  ghost predicate TrippedNext(cfg: Config, h: seq<Item>, e: Item) {
    match e.ev
    case Failure(_, _) => Tripped(cfg, h) || FailStreak(h) + 1 >= cfg.failureThreshold
    case Success(_) => Tripped(cfg, h) && SuccessStreak(h) + 1 < cfg.Closes()
    case Reset => false
    case _ => Tripped(cfg, h)
  }

  lemma SincePrefix(cfg: Config, h: seq<Item>, e: Item, i: nat)
    requires i <= |h|
    ensures TrippedSince(cfg, h + [e], i) <==>
      TrippedSince(cfg, h, i) && e.ev != Reset && SuccessStreak(h + [e]) < cfg.Closes()
  {
    var g := h + [e];
    assert g[|h|] == e;
    forall j | 0 <= j <= |h|
      ensures FailsAt(g, j) == FailsAt(h, j) && SuccessesAt(g, j) == SuccessesAt(h, j)
    {
      PrefixStreaks(h, e, j);
    }
    assert forall j :: 0 <= j < |h| ==> g[j] == h[j];
    if TrippedSince(cfg, g, i) {
      assert g[|h|].ev != Reset && SuccessesAt(g, |g|) < cfg.Closes();
    }
  }

  /** A live failure streak leaves no room for a success streak. */
  lemma {:induction false} StreaksExclude(h: seq<Item>, n: nat)
    requires n <= |h|
    ensures FailsAt(h, n) == 0 || SuccessesAt(h, n) == 0
  {
    if n > 0 {
      StreaksExclude(h, n - 1);
    }
  }

  /** The breaker's meaning, for every history under one enabled configuration: it is
      closed exactly when the history is not tripped; closed, its counter is the failure
      streak, below the threshold; tripped, its counter is the success streak, below the
      closing count, and the open deadline counts from the latest failure. */
  ghost predicate Means(cfg: Config, h: seq<Item>, c: Circuit) {
    && (c.state != Closed <==> Tripped(cfg, h))
    && (c.state == Closed ==> c.failureCount == FailStreak(h) < cfg.failureThreshold)
    && (c.state != Closed ==> c.halfOpenSuccess == SuccessStreak(h) < cfg.Closes())
    && (c.state == Open ==> SuccessStreak(h) == 0)
    && (c.state != Closed || FailStreak(h) > 0 ==> c.lastFailure == LastFailureAt(h))
    && (c.state != Closed ==> c.openUntil == LastFailureAt(h) + cfg.openDuration)
  }

  lemma {:induction false} BreakerMeaning(cfg: Config, id: int, h: seq<Item>)
    requires FixedConfig(cfg, h)
    ensures Means(cfg, h, Fold(id, h).circuit)
  {
    if h == [] {
    } else {
      var front, e := h[..|h| - 1], h[|h| - 1];
      assert h == front + [e];
      BreakerMeaning(cfg, id, front);
      TrippedStep(cfg, front, e);
      MeaningStep(cfg, id, front, e);
    }
  }

  lemma MeaningStep(cfg: Config, id: int, h: seq<Item>, e: Item)
    requires e.cfg == cfg && !cfg.Disabled() && Means(cfg, h, Fold(id, h).circuit)
    requires Tripped(cfg, h + [e]) <==> TrippedNext(cfg, h, e)
    ensures Means(cfg, h + [e], Fold(id, h + [e]).circuit)
  {
    var g := h + [e];
    assert g[..|g| - 1] == h && g[|g| - 1] == e;
    PrefixStreaks(h, e, |h|);
  }

  /** From closed, a failure opens the breaker exactly when it is the threshold-th since
      the last success or reset. */
  lemma OpensExactly(cfg: Config, id: int, h: seq<Item>, now: int, reason: string)
    requires FixedConfig(cfg, h) && Fold(id, h).circuit.state == Closed
    ensures Fold(id, h + [Item(cfg, Failure(now, reason))]).circuit.state == Open
       <==> FailStreak(h) + 1 == cfg.failureThreshold
  {
    BreakerMeaning(cfg, id, h);
    Snoc(id, h, Item(cfg, Failure(now, reason)));
  }

  /** From open or half-open, a success closes it exactly when it completes the required
      run of successes since the last failure; nothing but a success or a reset closes. */
  lemma ClosesExactly(cfg: Config, id: int, h: seq<Item>, e: Event)
    requires FixedConfig(cfg, h) && Fold(id, h).circuit.state != Closed
    ensures Fold(id, h + [Item(cfg, e)]).circuit.state == Closed
       <==> e == Reset || (e.Success? && SuccessStreak(h) + 1 == cfg.Closes())
  {
    BreakerMeaning(cfg, id, h);
    Snoc(id, h, Item(cfg, e));
  }

  /** The cooldown in force after a history: the last one set, unless it lay in the past or
      a check has outlived it. */
  function CoolUntil(h: seq<Item>): Option<int>
    decreases h, 0
  {
    if h == [] then None
    else
      match h[|h| - 1].ev
      case Cooldown(until, now) => if until == ZERO || until <= now then None else Some(until)
      case Check(coolNow, _, _) => if Cooling(h[..|h| - 1], coolNow) then CoolUntil(h[..|h| - 1]) else None
      case _ => CoolUntil(h[..|h| - 1])
  }

  predicate Cooling(h: seq<Item>, now: int)
    decreases h, 1
  {
    var c := CoolUntil(h);
    c.Some? && now < c.value
  }

  /** Since the latest failure or reset there was a trial: a success, or a check that no
      cooldown stopped and that came after the open period. */
  predicate Trialled(cfg: Config, h: seq<Item>) {
    h != [] &&
    var front := h[..|h| - 1];
    match h[|h| - 1].ev
    case Failure(_, _) => false
    case Reset => false
    case Success(_) => true
    case Cooldown(_, _) => Trialled(cfg, front)
    case Check(coolNow, openNow, _) =>
      Trialled(cfg, front) || (!Cooling(front, coolNow) && openNow > LastFailureAt(front) + cfg.openDuration)
  }

  lemma {:induction false} CooldownMeaning(id: int, h: seq<Item>)
    ensures Fold(id, h).cooldown == CoolUntil(h)
  {
    if h != [] {
      CooldownMeaning(id, h[..|h| - 1]);
    }
  }

  /** Half-open, read from the history: tripped, with a trial since the latest failure. */
  lemma {:induction false} HalfOpenMeaning(cfg: Config, id: int, h: seq<Item>)
    requires FixedConfig(cfg, h)
    ensures Fold(id, h).circuit.state == HalfOpen <==> Tripped(cfg, h) && Trialled(cfg, h)
  {
    BreakerMeaning(cfg, id, h);
    if h != [] {
      var front, e := h[..|h| - 1], h[|h| - 1];
      assert h == front + [e] && FixedConfig(cfg, front);
      HalfOpenMeaning(cfg, id, front);
      BreakerMeaning(cfg, id, front);
      CooldownMeaning(id, front);
      HalfOpenStep(cfg, id, front, e);
    }
  }

  lemma HalfOpenStep(cfg: Config, id: int, h: seq<Item>, e: Item)
    requires e.cfg == cfg && !cfg.Disabled() && Means(cfg, h, Fold(id, h).circuit)
    requires Fold(id, h).cooldown == CoolUntil(h)
    requires Fold(id, h).circuit.state == HalfOpen <==> Tripped(cfg, h) && Trialled(cfg, h)
    requires Means(cfg, h + [e], Fold(id, h + [e]).circuit)
    ensures Fold(id, h + [e]).circuit.state == HalfOpen <==> Tripped(cfg, h + [e]) && Trialled(cfg, h + [e])
  {
    Snoc(id, h, e);
    assert (h + [e])[..|h|] == h;
  }

  /** An enabled breaker turns a request away exactly in these cases, all read from the
      history: a cooldown is in force, or it is tripped, there was no trial since the latest
      failure, and the open period since then is not over. */
  lemma TurnsAway(cfg: Config, id: int, h: seq<Item>, coolNow: int, openNow: int)
    requires FixedConfig(cfg, h)
    ensures !Answers(Fold(id, h), cfg, coolNow, openNow) <==>
      || Cooling(h, coolNow)
      || (Tripped(cfg, h) && !Trialled(cfg, h) && openNow <= LastFailureAt(h) + cfg.openDuration)
  {
    BreakerMeaning(cfg, id, h);
    HalfOpenMeaning(cfg, id, h);
    CooldownMeaning(id, h);
  }

  /** A breaker that is turned off turns away during a cooldown only, whatever its history. */
  lemma DisabledAdmits(cfg: Config, id: int, h: seq<Item>, coolNow: int, openNow: int)
    requires cfg.failureThreshold <= 0
    ensures Answers(Fold(id, h), cfg, coolNow, openNow) <==> !Cooling(h, coolNow)
  {
    CooldownMeaning(id, h);
  }

  /** And while it is off, checks and outcomes leave the circuit and the log alone. */
  lemma {:induction false} DisabledIsInert(id: int, h: seq<Item>, more: seq<Item>)
    requires forall i :: 0 <= i < |more| ==>
      more[i].cfg.failureThreshold <= 0 && (more[i].ev.Check? || more[i].ev.Success? || more[i].ev.Failure?)
    ensures Fold(id, h + more).circuit == Fold(id, h).circuit && Fold(id, h + more).log == Fold(id, h).log
  {
    if more == [] {
      assert h + more == h;
    } else {
      var front, e := more[..|more| - 1], more[|more| - 1];
      DisabledIsInert(id, h, front);
      assert h + more == h + front + [e];
      Snoc(id, h + front, e);
    }
  }

  /** Failures since the breaker was last closed without any: a success counts them out only
      if it finds or leaves the breaker closed. */
  ghost function Held(cfg: Config, h: seq<Item>): nat {
    if h == [] then 0
    else
      match h[|h| - 1].ev
      case Failure(_, _) => Held(cfg, h[..|h| - 1]) + 1
      case Success(_) => if Tripped(cfg, h) then Held(cfg, h[..|h| - 1]) else 0
      case Reset => 0
      case _ => Held(cfg, h[..|h| - 1])
  }

  lemma {:induction false} HeldMeaning(cfg: Config, id: int, h: seq<Item>)
    requires FixedConfig(cfg, h)
    ensures Fold(id, h).circuit.failureCount == Held(cfg, h)
  {
    if h != [] {
      HeldMeaning(cfg, id, h[..|h| - 1]);
      BreakerMeaning(cfg, id, h[..|h| - 1]);
      BreakerMeaning(cfg, id, h);
    }
  }

  /** The instant of the last failure that is still held: forgotten by a reset, and by a
      success that finds the breaker closed or closes it after a trial. */
  ghost function HeldSince(cfg: Config, h: seq<Item>): int {
    if h == [] then ZERO
    else
      var front := h[..|h| - 1];
      match h[|h| - 1].ev
      case Failure(now, _) => now
      case Success(_) =>
        if Tripped(cfg, h) || (Tripped(cfg, front) && !Trialled(cfg, front)) then HeldSince(cfg, front) else ZERO
      case Reset => ZERO
      case _ => HeldSince(cfg, front)
  }

  lemma {:induction false} HeldSinceMeaning(cfg: Config, id: int, h: seq<Item>)
    requires FixedConfig(cfg, h)
    ensures Fold(id, h).circuit.lastFailure == HeldSince(cfg, h)
  {
    if h != [] {
      var front := h[..|h| - 1];
      HeldSinceMeaning(cfg, id, front);
      BreakerMeaning(cfg, id, front);
      HalfOpenMeaning(cfg, id, front);
      BreakerMeaning(cfg, id, h);
    }
  }

  /** What one event makes the tracker emit: nothing unless the state changes by an event
      other than a reset, and then where from and to, the failures held, the reason of a
      failure and the event's own time. */
  lemma EmissionMeaning(id: int, a: Account, i: Item)
    ensures var b := Apply(id, a, i);
      b.log == a.log +
        if b.circuit.state == a.circuit.state || i.ev == Reset then []
        else [Transition(id, a.circuit.state, b.circuit.state, b.circuit.failureCount,
                         if i.ev.Failure? then Some(i.ev.reason) else None,
                         if i.ev.Failure? then i.ev.now else i.ev.at)]
  {
    assert a.log + [] == a.log;
  }

  lemma Snoc(id: int, h: seq<Item>, e: Item)
    ensures Fold(id, h + [e]) == Apply(id, Fold(id, h), e)
  {
    assert (h + [e])[..|h|] == h;
  }

  /** The emitted transitions start at closed, join head to tail, never stay in place, and
      end at the current state. */
  ghost predicate Chained(log: seq<Transition>, last: CircuitState) {
    && (log == [] ==> last == Closed)
    && (log != [] ==> log[0].from == Closed && log[|log| - 1].to == last)
    && (forall i :: 0 <= i < |log| ==> log[i].from != log[i].to)
    && (forall i :: 0 < i < |log| ==> log[i - 1].to == log[i].from)
  }

  /** Every reset found the account closed. */
  ghost predicate ResetsOnlyClosed(id: int, h: seq<Item>) {
    forall i :: 0 <= i < |h| && h[i].ev == Reset ==> Fold(id, h[..i]).circuit.state == Closed
  }

  /** A gap in the log, or one that the next transition must leave. */
  ghost predicate Torn(log: seq<Transition>, last: CircuitState) {
    || (exists i :: 0 < i < |log| && log[i - 1].to != log[i].from)
    || (log != [] && last == Closed && log[|log| - 1].to != Closed)
  }

  lemma ChainStep(id: int, a: Account, i: Item)
    requires Chained(a.log, a.circuit.state)
    ensures i.ev != Reset || a.circuit.state == Closed ==>
      Chained(Apply(id, a, i).log, Apply(id, a, i).circuit.state)
    ensures i.ev == Reset && a.circuit.state != Closed ==>
      Torn(Apply(id, a, i).log, Apply(id, a, i).circuit.state)
  {
  }

  /** No later event mends a torn log. */
  lemma TornStays(id: int, a: Account, i: Item)
    requires Torn(a.log, a.circuit.state)
    ensures Torn(Apply(id, a, i).log, Apply(id, a, i).circuit.state)
  {
    var b := Apply(id, a, i);
    LogGrows(id, a, i);
    if k :| 0 < k < |a.log| && a.log[k - 1].to != a.log[k].from {
      assert b.log[k - 1].to != b.log[k].from;
    } else if b.log != a.log {
      assert b.log[|a.log| - 1].to != b.log[|a.log|].from;
    }
  }

  lemma LogGrows(id: int, a: Account, i: Item)
    ensures var b := Apply(id, a, i);
      && a.log <= b.log && |b.log| <= |a.log| + 1
      && (b.log != a.log ==> b.log[|a.log|].from == a.circuit.state)
      && (b.log == a.log && i.ev != Reset ==> b.circuit.state == a.circuit.state)
  {
  }

  lemma {:induction false} ChainedOrTorn(id: int, h: seq<Item>)
    ensures if ResetsOnlyClosed(id, h) then Chained(Fold(id, h).log, Fold(id, h).circuit.state)
            else Torn(Fold(id, h).log, Fold(id, h).circuit.state)
  {
    if h != [] {
      var front, e := h[..|h| - 1], h[|h| - 1];
      ChainedOrTorn(id, front);
      ResetsSnoc(id, front, e);
      assert h == front + [e];
      if ResetsOnlyClosed(id, front) {
        ChainStep(id, Fold(id, front), e);
      } else {
        TornStays(id, Fold(id, front), e);
      }
    }
  }

  lemma ResetsSnoc(id: int, h: seq<Item>, e: Item)
    ensures ResetsOnlyClosed(id, h + [e]) <==>
      ResetsOnlyClosed(id, h) && (e.ev == Reset ==> Fold(id, h).circuit.state == Closed)
  {
    var g := h + [e];
    assert g[..|h|] == h && g[|h|] == e;
    forall i | 0 <= i < |h| ensures g[..i] == h[..i] && g[i] == h[i] {}
  }

  /** The transitions chain head to tail exactly when no reset ever hit an account that was
      not closed: such a reset changes the state and emits nothing. */
  lemma TransitionsChainIff(id: int, h: seq<Item>)
    ensures Chained(Fold(id, h).log, Fold(id, h).circuit.state) <==> ResetsOnlyClosed(id, h)
  {
    ChainedOrTorn(id, h);
  }

  /** A history that tears the log: one failure opens, one reset closes silently. */
  lemma ResetTearsLog(id: int, cfg: Config, now: int, reason: string)
    requires cfg.failureThreshold == 1
    ensures var h := [Item(cfg, Failure(now, reason)), Item(cfg, Reset)];
      !Chained(Fold(id, h).log, Fold(id, h).circuit.state)
  {
    var f, r := Item(cfg, Failure(now, reason)), Item(cfg, Reset);
    var h := [f, r];
    assert h[..1] == [f] && [f][..0] == [];
    assert Fold(id, [f]) == Apply(id, NEW, f);
    assert Fold(id, h) == Apply(id, Fold(id, [f]), r);
  }
}
