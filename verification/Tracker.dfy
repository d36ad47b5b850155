/** The process-wide registry of circuit breakers (internal/service/health/tracker.go). */
module Tracker {
  import opened Common
  import opened Breaker

  /** One call on the tracker, as recorded in its history. */
  datatype Call = Call(account: int, item: Item)

  /** The calls that concern one account. */
  function Project(h: seq<Call>, id: int): seq<Item> {
    if h == [] then []
    else Project(h[..|h| - 1], id) + if h[|h| - 1].account == id then [h[|h| - 1].item] else []
  }

  /** The transitions emitted for one account. */
  function LogOf(log: seq<Transition>, id: int): seq<Transition> {
    if log == [] then []
    else LogOf(log[..|log| - 1], id) + if log[|log| - 1].account == id then [log[|log| - 1]] else []
  }

  lemma ProjectSnoc(h: seq<Call>, c: Call, id: int)
    ensures Project(h + [c], id) == Project(h, id) + if c.account == id then [c.item] else []
  {
    assert (h + [c])[..|h|] == h;
  }

  lemma LogSnoc(log: seq<Transition>, t: Transition, id: int)
    ensures LogOf(log + [t], id) == LogOf(log, id) + if t.account == id then [t] else []
  {
    assert (log + [t])[..|log|] == log;
  }

  /** The tracker's mutable part. */
  datatype Registry = Registry(states: map<int, Circuit>, cooldowns: map<int, int>, emitted: seq<Transition>) {

    /** One account without its past transitions. */
    function Current(id: int): Account {
      Account(if id in states then states[id] else FRESH,
              if id in cooldowns then Some(cooldowns[id]) else None,
              [])
    }

    /** What the registry says about one account. */
    function AccountOf(id: int): Account {
      Current(id).(log := LogOf(emitted, id))
    }

    /** The registry after one call. */
    function Update(c: Call): Registry {
      var id := c.account;
      var b := Apply(id, Current(id), c.item);
      Registry(
        if c.item.ev == Event.Reset then states - {id}
        else if b.circuit == Current(id).circuit && !Creates(c.item) then states else states[id := b.circuit],
        if b.cooldown.Some? then cooldowns[id := b.cooldown.value] else cooldowns - {id},
        emitted + b.log)
    }
  }

  /** Recording an outcome creates the account's entry; asking does not. */
  predicate Creates(i: Item) {
    !i.cfg.Disabled() && (i.ev.Success? || i.ev.Failure?)
  }

  /** The log only grows, and what is added does not depend on it. */
  lemma ApplyLog(id: int, a: Account, i: Item)
    ensures Apply(id, a, i) == Apply(id, a.(log := []), i).(log := a.log + Apply(id, a.(log := []), i).log)
    ensures |Apply(id, a.(log := []), i).log| <= 1
    ensures forall t :: t in Apply(id, a.(log := []), i).log ==> t.account == id
  {
  }

  lemma LogConcat(log: seq<Transition>, more: seq<Transition>, id: int)
    requires |more| <= 1
    ensures LogOf(log + more, id) == LogOf(log, id) + (if more != [] && more[0].account == id then more else [])
  {
    if more == [] {
      assert log + more == log;
    } else {
      assert more == [more[0]];
      LogSnoc(log, more[0], id);
    }
  }

  lemma UpdateOne(r: Registry, c: Call, id: int)
    ensures r.Update(c).AccountOf(id) ==
      if id == c.account then Apply(id, r.AccountOf(id), c.item) else r.AccountOf(id)
  {
    var b := Apply(c.account, r.Current(c.account), c.item);
    UpdateCurrent(r, c, id);
    assert LogOf(r.emitted + b.log, id) == LogOf(r.emitted, id) + (if id == c.account then b.log else []) by {
      LogConcat(r.emitted, b.log, id);
      ApplyLog(c.account, r.AccountOf(c.account), c.item);
      assert b.log != [] ==> b.log[0] in b.log;
    }
    ApplyLog(c.account, r.AccountOf(c.account), c.item);
    assert LogOf(r.emitted, id) + [] == LogOf(r.emitted, id);
  }

  lemma UpdateCurrent(r: Registry, c: Call, id: int)
    ensures r.Update(c).Current(id) ==
      if id == c.account then Apply(id, r.Current(id), c.item).(log := []) else r.Current(id)
  {
  }

  /** Recording an outcome with an enabled breaker enters the account, a reset removes it, and
      nothing else, asking included, changes which accounts are known. */
  lemma KnownAccounts(r: Registry, c: Call)
    ensures r.Update(c).states.Keys ==
      if c.item.ev == Event.Reset then r.states.Keys - {c.account}
      else if c.item.cfg.failureThreshold >= 1 && (c.item.ev.Success? || c.item.ev.Failure?)
      then r.states.Keys + {c.account}
      else r.states.Keys
  {
  }

  /** One more call applies to its own account's fold and to no other. */
  lemma FoldSnoc(h: seq<Call>, c: Call, id: int)
    ensures Fold(id, Project(h + [c], id)) ==
      if c.account == id then Apply(id, Fold(id, Project(h, id)), c.item) else Fold(id, Project(h, id))
  {
    ProjectSnoc(h, c, id);
    Snoc(id, Project(h, id), c.item);
    assert Project(h, id) + [] == Project(h, id);
  }

  /** Each account is the fold of its own calls, whatever calls the others receive in
      between. */
  ghost predicate Tracks(r: Registry, h: seq<Call>) {
    forall id :: r.AccountOf(id) == Fold(id, Project(h, id))
  }

  lemma TracksOneMore(r: Registry, h: seq<Call>, c: Call)
    requires Tracks(r, h)
    ensures Tracks(r.Update(c), h + [c])
  {
    forall id
      ensures r.Update(c).AccountOf(id) == Fold(id, Project(h + [c], id))
    {
      UpdateOne(r, c, id);
      FoldSnoc(h, c, id);
    }
  }

  /** A per-account override, unless it is the zero configuration. */
  function Effective(default: Config, lookup: Option<int -> Config>, id: int): Config {
    if lookup.None? || lookup.value(id) == Config(0, 0, 0) then default else lookup.value(id)
  }

  class Tracker {
    var defaultConfig: Config
    var lookup: Option<int -> Config>
    var states: map<int, Circuit>
    var cooldowns: map<int, int>
    var emitted: seq<Transition>   // what the transition handler has seen
    ghost var history: seq<Call>

    function View(): Registry
      reads this
    {
      Registry(states, cooldowns, emitted)
    }

    ghost predicate Valid()
      reads this
    {
      Tracks(View(), history)
    }

    function ConfigFor(id: int): Config
      reads this`defaultConfig, this`lookup
    {
      Effective(defaultConfig, lookup, id)
    }

    /** Every call on an account runs under its own configuration, or under the default if
        there is none or it is all zero. */
    lemma ConfigMeaning(id: int)
      ensures lookup.Some? && !lookup.value(id).IsZero() ==> ConfigFor(id) == lookup.value(id)
      ensures lookup.None? || lookup.value(id).IsZero() ==> ConfigFor(id) == defaultConfig
    {
    }

    constructor (cfg: Config)
      ensures Valid() && history == []
      ensures defaultConfig == cfg && lookup == None
    {
      defaultConfig, lookup := cfg, None;
      states, cooldowns, emitted, history := map[], map[], [], [];
    }

    method SetConfigLookup(l: Option<int -> Config>)
      requires Valid()
      modifies this`lookup
      ensures Valid() && lookup == l
    {
      lookup := l;
    }

    /** The call is the only new one, and the fields have followed it. */
    twostate predicate Recorded(id: int, ev: Event)
      reads this
    {
      && defaultConfig == old(defaultConfig) && lookup == old(lookup)
      && history == old(history) + [Call(id, Item(ConfigFor(id), ev))]
      && View() == old(View()).Update(Call(id, Item(ConfigFor(id), ev)))
    }

    method IsAvailable(id: int, coolNow: int, openNow: int, at: int) returns (ok: bool)
      requires Valid()
      modifies this
      ensures Recorded(id, Check(coolNow, openNow, at))
      ensures Valid()
      ensures ok == Answers(old(View()).Current(id), ConfigFor(id), coolNow, openNow)
    {
      var cfg := ConfigFor(id);
      history := history + [Call(id, Item(cfg, Check(coolNow, openNow, at)))];
      ok := !(id in cooldowns && coolNow < cooldowns[id]);
      if ok {
        cooldowns := cooldowns - {id};
        if !cfg.Disabled() && id in states && states[id].state == Open {
          ok := HalfOpenTrial(id, openNow, at);
        }
      }
      TracksOneMore(old(View()), old(history), Call(id, Item(cfg, Check(coolNow, openNow, at))));
    }

    /** An open breaker admits a trial once its deadline has passed. */
    method HalfOpenTrial(id: int, now: int, at: int) returns (ok: bool)
      requires id in states && states[id].state == Open
      modifies this`states, this`emitted
      ensures ok == (now > old(states)[id].openUntil)
      ensures !ok ==> states == old(states) && emitted == old(emitted)
      ensures ok ==> states == old(states)[id := old(states)[id].(state := HalfOpen, halfOpenSuccess := 0)]
      ensures ok ==> emitted == old(emitted) + [Transition(id, Open, HalfOpen, states[id].failureCount, None, at)]
    {
      ok := now > states[id].openUntil;
      if ok {
        states := states[id := states[id].(state := HalfOpen, halfOpenSuccess := 0)];
        emitted := emitted + [Transition(id, Open, HalfOpen, states[id].failureCount, None, at)];
      }
    }

    method RecordSuccess(id: int, at: int)
      requires Valid()
      modifies this
      ensures Recorded(id, Success(at))
      ensures Valid()
    {
      var cfg := ConfigFor(id);
      history := history + [Call(id, Item(cfg, Success(at)))];
      if !cfg.Disabled() {
        var s := if id in states then states[id] else FRESH;
        var before := s.state;
        s := Succeed(cfg, s);
        states := states[id := s];
        if before != s.state {
          emitted := emitted + [Transition(id, before, s.state, s.failureCount, None, at)];
        }
      }
      TracksOneMore(old(View()), old(history), Call(id, Item(cfg, Success(at))));
    }

    /** The switch of RecordSuccess. */
    static method Succeed(cfg: Config, c: Circuit) returns (s: Circuit)
      ensures s == AfterSuccess(cfg, c)
    {
      s := c;
      match s.state {
        case Closed =>
          s := s.(failureCount := 0, lastFailure := ZERO);
        case HalfOpen =>
          s := s.(halfOpenSuccess := s.halfOpenSuccess + 1);
          if s.halfOpenSuccess >= cfg.halfOpenSuccessThreshold {
            s := Circuit(Closed, 0, ZERO, ZERO, 0);
          }
        case Open =>
          s := s.(state := HalfOpen, halfOpenSuccess := 1);
          if s.halfOpenSuccess >= cfg.halfOpenSuccessThreshold {
            s := s.(state := Closed, failureCount := 0, openUntil := ZERO, halfOpenSuccess := 0);
          }
      }
    }

    method RecordFailure(id: int, now: int, reason: string)
      requires Valid()
      modifies this
      ensures Recorded(id, Failure(now, reason))
      ensures Valid()
    {
      var cfg := ConfigFor(id);
      history := history + [Call(id, Item(cfg, Failure(now, reason)))];
      if !cfg.Disabled() {
        var s := if id in states then states[id] else FRESH;
        var before := s.state;
        s := Fail(cfg, s, now);
        states := states[id := s];
        if before != s.state {
          emitted := emitted + [Transition(id, before, s.state, s.failureCount, Some(reason), now)];
        }
      }
      TracksOneMore(old(View()), old(history), Call(id, Item(cfg, Failure(now, reason))));
    }

    /** The switch of RecordFailure. */
    static method Fail(cfg: Config, c: Circuit, now: int) returns (s: Circuit)
      ensures s == AfterFailure(cfg, c, now)
    {
      s := c.(failureCount := c.failureCount + 1, lastFailure := now);
      match s.state {
        case Closed =>
          if s.failureCount >= cfg.failureThreshold {
            s := s.(state := Open, openUntil := now + cfg.openDuration, halfOpenSuccess := 0);
          }
        case HalfOpen =>
          s := s.(state := Open, openUntil := now + cfg.openDuration, halfOpenSuccess := 0);
        case Open =>
          s := s.(openUntil := now + cfg.openDuration);
      }
    }

    method SetCooldown(id: int, until: int, now: int)
      requires Valid()
      modifies this
      ensures Recorded(id, Event.Cooldown(until, now))
      ensures Valid()
    {
      var cfg := ConfigFor(id);
      history := history + [Call(id, Item(cfg, Event.Cooldown(until, now)))];
      if until == ZERO || until <= now {
        cooldowns := cooldowns - {id};
      } else {
        cooldowns := cooldowns[id := until];
      }
      TracksOneMore(old(View()), old(history), Call(id, Item(cfg, Event.Cooldown(until, now))));
    }

    method Reset(id: int)
      requires Valid()
      modifies this
      ensures Recorded(id, Event.Reset)
      ensures Valid()
    {
      var cfg := ConfigFor(id);
      history := history + [Call(id, Item(cfg, Event.Reset))];
      states := states - {id};
      TracksOneMore(old(View()), old(history), Call(id, Item(cfg, Event.Reset)));
    }
  }
}
