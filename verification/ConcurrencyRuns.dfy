/** Handlers sharing the guard. A handler reserves a slot per attempt and its deferred
    releases run last-in first-out when it returns; every guard call is one step. */
module ConcurrencyRuns {
  import opened Concurrency

  datatype Handler = Handler(slots: seq<int>, returning: bool)

  datatype State = State(inflight: Inflight, handlers: seq<Handler>)

  datatype Action =
    | Begin
    | Reserve(h: nat, id: int, max: int)
    | Return(h: nat)
    | ReleaseLast(h: nat)

  const INIT := State(map[], [])

  function Next(s: State, a: Action): State {
    match a
    case Begin => s.(handlers := s.handlers + [Handler([], false)])
    case Reserve(h, id, max) =>
      if h >= |s.handlers| || s.handlers[h].returning || !Admits(s.inflight, id, max) then s
      else State(Acquired(s.inflight, id), s.handlers[h := s.handlers[h].(slots := s.handlers[h].slots + [id])])
    case Return(h) =>
      if h >= |s.handlers| then s else s.(handlers := s.handlers[h := s.handlers[h].(returning := true)])
    case ReleaseLast(h) =>
      if !CanRelease(s, h) then s
      else
        var slots := s.handlers[h].slots;
        State(Released(s.inflight, slots[|slots| - 1]),
              s.handlers[h := s.handlers[h].(slots := slots[..|slots| - 1])])
  }

  predicate CanRelease(s: State, h: nat) {
    h < |s.handlers| && s.handlers[h].returning && s.handlers[h].slots != []
  }

  function Exec(run: seq<Action>): State {
    if run == [] then INIT else Next(Exec(run[..|run| - 1]), run[|run| - 1])
  }

  /** Slots of one account that the handlers hold, whatever they are doing. */
  function Held(hs: seq<Handler>, id: int): int {
    if hs == [] then 0 else Held(hs[..|hs| - 1], id) + multiset(hs[|hs| - 1].slots)[id]
  }

  lemma {:induction false} HeldIsNatural(hs: seq<Handler>, h: nat, id: int)
    requires h < |hs|
    ensures Held(hs, id) >= multiset(hs[h].slots)[id]
  {
    if h < |hs| - 1 {
      HeldIsNatural(hs[..|hs| - 1], h, id);
    } else if |hs| > 1 {
      HeldIsNatural(hs[..|hs| - 1], 0, id);
    }
  }

  lemma {:induction false} HeldUpdate(hs: seq<Handler>, h: nat, x: Handler, id: int)
    requires h < |hs|
    ensures Held(hs[h := x], id) == Held(hs, id) - multiset(hs[h].slots)[id] + multiset(x.slots)[id]
  {
    var hs' := hs[h := x];
    if h < |hs| - 1 {
      HeldUpdate(hs[..|hs| - 1], h, x, id);
      assert hs'[..|hs| - 1] == hs[..|hs| - 1][h := x];
    } else {
      assert hs'[..|hs| - 1] == hs[..|hs| - 1];
    }
  }

  ghost predicate Counted(s: State) {
    && (forall id :: Count(s.inflight, id) == Held(s.handlers, id))
    && (forall id :: id in s.inflight ==> s.inflight[id] > 0)
  }

  lemma AcquiredCounts(m: Inflight, id: int, j: int)
    requires Count(m, id) >= 0
    ensures Count(Acquired(m, id), j) == Count(m, j) + if j == id then 1 else 0
  {
  }

  lemma ReleasedCounts(m: Inflight, id: int, j: int)
    requires Count(m, id) > 0
    ensures Count(Released(m, id), j) == Count(m, j) - if j == id then 1 else 0
  {
  }

  lemma ReserveKeeps(s: State, h: nat, id: int, max: int)
    requires Counted(s) && h < |s.handlers| && !s.handlers[h].returning && Admits(s.inflight, id, max)
    ensures Counted(Next(s, Reserve(h, id, max)))
  {
    var s' := Next(s, Reserve(h, id, max));
    HeldIsNatural(s.handlers, h, id);
    forall j ensures Count(s'.inflight, j) == Held(s'.handlers, j) {
      HeldUpdate(s.handlers, h, s'.handlers[h], j);
      AcquiredCounts(s.inflight, id, j);
    }
  }

  /** The clamp in Release is never hit: a handler only returns slots that are counted. */
  lemma ReleaseNeverClamps(s: State, h: nat)
    requires Counted(s) && CanRelease(s, h)
    ensures var slots := s.handlers[h].slots;
      Count(s.inflight, slots[|slots| - 1]) > 0
  {
    var slots := s.handlers[h].slots;
    HeldIsNatural(s.handlers, h, slots[|slots| - 1]);
    assert slots[|slots| - 1] in multiset(slots);
  }

  lemma ReleaseKeeps(s: State, h: nat)
    requires Counted(s) && CanRelease(s, h)
    ensures Counted(Next(s, ReleaseLast(h)))
  {
    var s' := Next(s, ReleaseLast(h));
    var slots := s.handlers[h].slots;
    var id := slots[|slots| - 1];
    ReleaseNeverClamps(s, h);
    forall j ensures Count(s'.inflight, j) == Held(s'.handlers, j) {
      HeldUpdate(s.handlers, h, s'.handlers[h], j);
      ReleasedCounts(s.inflight, id, j);
      assert slots == slots[..|slots| - 1] + [id];
    }
  }

  lemma OthersKeep(s: State, a: Action)
    requires Counted(s) && (a.Begin? || a.Return?)
    ensures Counted(Next(s, a))
  {
    if a.Begin? {
      assert Next(s, a).handlers[..|s.handlers|] == s.handlers;
    } else if a.h < |s.handlers| {
      forall j ensures Held(Next(s, a).handlers, j) == Held(s.handlers, j) {
        HeldUpdate(s.handlers, a.h, s.handlers[a.h].(returning := true), j);
      }
    }
  }

  /** In every interleaving the guard counts exactly the slots that handlers hold. */
  lemma {:induction false} EveryRun(run: seq<Action>)
    ensures Counted(Exec(run))
  {
    if run != [] {
      var s, a := Exec(run[..|run| - 1]), run[|run| - 1];
      EveryRun(run[..|run| - 1]);
      match a
      case Reserve(h, id, max) =>
        if h < |s.handlers| && !s.handlers[h].returning && Admits(s.inflight, id, max) {
          ReserveKeeps(s, h, id, max);
        }
      case ReleaseLast(h) => if CanRelease(s, h) { ReleaseKeeps(s, h); }
      case _ => OthersKeep(s, a);
    }
  }

  /** Nothing leaks: once every handler has returned its slots, the map is empty. */
  lemma EmptyWhenAllReturned(run: seq<Action>)
    requires forall h :: 0 <= h < |Exec(run).handlers| ==> Exec(run).handlers[h].slots == []
    ensures Exec(run).inflight == map[]
  {
    EveryRun(run);
    var s := Exec(run);
    forall id ensures id !in s.inflight {
      NoneHeld(s.handlers, id);
      assert Count(s.inflight, id) == 0;
    }
  }

  lemma {:induction false} NoneHeld(hs: seq<Handler>, id: int)
    requires forall h :: 0 <= h < |hs| ==> hs[h].slots == []
    ensures Held(hs, id) == 0
  {
    if hs != [] {
      NoneHeld(hs[..|hs| - 1], id);
    }
  }

  /** Every reservation of the account asked with the same positive cap, or a lower one. */
  ghost predicate CapFixed(run: seq<Action>, id: int, cap: int) {
    forall i :: 0 <= i < |run| && run[i].Reserve? && run[i].id == id ==> 0 < run[i].max <= cap
  }

  /** A fixed positive cap bounds the slots actually held at once. */
  lemma {:induction false} CapIsRespected(run: seq<Action>, id: int, cap: int)
    requires cap > 0 && CapFixed(run, id, cap)
    ensures Held(Exec(run).handlers, id) <= cap
  {
    if run != [] {
      var s, a := Exec(run[..|run| - 1]), run[|run| - 1];
      CapIsRespected(run[..|run| - 1], id, cap);
      EveryRun(run[..|run| - 1]);
      EveryRun(run);
      assert CapFixed(run, id, cap) && run[|run| - 1] == a;
      if CanReleaseAction(s, a) {
        var slots := s.handlers[a.h].slots;
        ReleaseNeverClamps(s, a.h);
        ReleasedCounts(s.inflight, slots[|slots| - 1], id);
      } else if a.Reserve? {
        HeldCount(s, a.id);
        if Next(s, a) != s { AcquiredCounts(s.inflight, a.id, id); }
      }
    }
  }

  predicate CanReleaseAction(s: State, a: Action) { a.ReleaseLast? && CanRelease(s, a.h) }

  lemma HeldCount(s: State, id: int)
    requires Counted(s)
    ensures Count(s.inflight, id) >= 0
  {
  }

  /** An account refused at its cap really has that many slots held. */
  lemma RefusalIsReal(run: seq<Action>, id: int, max: int)
    ensures !Admits(Exec(run).inflight, id, max) <==> max > 0 && Held(Exec(run).handlers, id) >= max
  {
    EveryRun(run);
  }

  lemma RunOn(run: seq<Action>, a: Action)
    ensures Exec(run + [a]) == Next(Exec(run), a)
  {
    assert (run + [a])[..|run|] == run;
  }

  /** One handler that has reserved k slots of one account. */
  ghost predicate HoldsOnly(s: State, id: int, k: nat) {
    && |s.handlers| == 1 && !s.handlers[0].returning
    && multiset(s.handlers[0].slots)[id] == k
  }

  /** And the cap can be used up: some run holds exactly that many. */
  lemma CapIsReached(id: int, cap: int) returns (run: seq<Action>)
    requires cap > 0
    ensures CapFixed(run, id, cap) && Held(Exec(run).handlers, id) == cap
  {
    run := [Begin];
    assert [Begin][..0] == [] && Exec([Begin]) == Next(Exec([]), Begin);
    var k := 0;
    while k < cap
      invariant 0 <= k <= cap && CapFixed(run, id, cap) && HoldsOnly(Exec(run), id, k)
    {
      var s, a := Exec(run), Reserve(0, id, cap);
      RunOn(run, a);
      EveryRun(run);
      HeldByOne(s.handlers, id);
      run := run + [a];
      k := k + 1;
    }
    HeldByOne(Exec(run).handlers, id);
  }

  lemma HeldByOne(hs: seq<Handler>, id: int)
    requires |hs| == 1
    ensures Held(hs, id) == multiset(hs[0].slots)[id]
  {
    assert hs[..0] == [];
  }

  /** Handlers that do nothing but return and release their slots. */
  ghost predicate OnlyReturns(run: seq<Action>) {
    forall i :: 0 <= i < |run| ==> run[i].Return? || run[i].ReleaseLast?
  }

  /** From every reachable state the handlers can return, and then the map is empty. */
  lemma AllCanReturn(run: seq<Action>) returns (more: seq<Action>)
    ensures OnlyReturns(more) && Exec(run + more).inflight == map[]
  {
    more := [];
    assert run + more == run;
    var h := 0;
    while h < |Exec(run).handlers|
      invariant 0 <= h <= |Exec(run + more).handlers| == |Exec(run).handlers| && OnlyReturns(more)
      invariant forall i :: 0 <= i < h ==> Exec(run + more).handlers[i].slots == []
    {
      more := HandlerReturns(run, more, h);
      h := h + 1;
    }
    EmptyWhenAllReturned(run + more);
  }

  lemma HandlerReturns(run: seq<Action>, before: seq<Action>, h: nat) returns (more: seq<Action>)
    requires OnlyReturns(before) && h < |Exec(run + before).handlers|
    ensures OnlyReturns(more) && |Exec(run + more).handlers| == |Exec(run + before).handlers|
    ensures Exec(run + more).handlers[h].slots == []
    ensures forall i :: 0 <= i < |Exec(run + before).handlers| && i != h ==>
      Exec(run + more).handlers[i] == Exec(run + before).handlers[i]
  {
    RunOn(run + before, Return(h));
    more := before + [Return(h)];
    assert run + before + [Return(h)] == run + more;
    while Exec(run + more).handlers[h].slots != []
      invariant OnlyReturns(more) && |Exec(run + more).handlers| == |Exec(run + before).handlers|
      invariant Exec(run + more).handlers[h].returning
      invariant forall i :: 0 <= i < |Exec(run + before).handlers| && i != h ==>
        Exec(run + more).handlers[i] == Exec(run + before).handlers[i]
      decreases |Exec(run + more).handlers[h].slots|
    {
      RunOn(run + more, ReleaseLast(h));
      assert run + more + [ReleaseLast(h)] == run + (more + [ReleaseLast(h)]);
      more := more + [ReleaseLast(h)];
    }
  }
}
