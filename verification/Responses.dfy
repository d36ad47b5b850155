/** WriteResponsesAggregated and assembleResponsesBody of
    internal/service/forward/forward.go: a stream of events becomes one response whose
    output is put back in order. */
module Responses {
  import opened Common

  type Item = int

  datatype Value = Output(items: seq<Item>) | OtherValue(id: int)

  /** A terminal payload; only an object has fields to graft the output onto. */
  datatype Response = Object(fields: map<string, Value>) | NullResponse | Scalar(id: int)

  /** A parsed line. A missing payload is None; an omitted index reads as -1. */
  datatype Event = Terminal(response: Option<Response>) | ItemDone(item: Option<Item>, index: int) | Ignored
  {
    predicate Carries() { ItemDone? && item.Some? && index >= 0 }

    predicate Ends() { Terminal? && response.Some? }
  }

  /** How the call ends. `Panicked` is the assignment to a nil map. */
  datatype Outcome = ErrorForwarded | ReadFailed | NoTerminal | BadTerminal | Panicked | Written(body: Response)

  const OUTPUT := "output"

  // ------------------------------------------------------------------ specification

  /** The last item sent for each index. */
  function Items(es: seq<Event>): map<nat, Item> {
    if es == [] then map[]
    else
      var e := es[|es| - 1];
      if e.Carries() then Items(es[..|es| - 1])[e.index := e.item.value] else Items(es[..|es| - 1])
  }

  function LastTerminal(es: seq<Event>): Option<Response> {
    if es == [] then None
    else if es[|es| - 1].Ends() then es[|es| - 1].response
    else LastTerminal(es[..|es| - 1])
  }

  /** The items at indices below n, in index order. */
  function Collect(items: map<nat, Item>, n: nat): seq<Item> {
    if n == 0 then []
    else Collect(items, n - 1) + if n - 1 in items then [items[n - 1]] else []
  }

  /** Some bound above every index. */
  predicate Below(items: map<nat, Item>, n: int) { forall k :: k in items ==> k < n }

  predicate Tight(items: map<nat, Item>, n: nat) { Below(items, n) && (n > 0 ==> n - 1 in items) }

  function Assembled(final: Response, items: map<nat, Item>, n: nat): Outcome {
    if items == map[] then Written(final)
    else
      match final
      case Object(fields) => Written(Object(fields[OUTPUT := Output(Collect(items, n))]))
      case NullResponse => Panicked
      case Scalar(_) => BadTerminal
  }

  function Aggregated(status: int, es: seq<Event>, broken: bool, n: nat): Outcome {
    if status >= 400 then ErrorForwarded
    else if broken then ReadFailed
    else
      match LastTerminal(es)
      case None => NoTerminal
      case Some(final) => Assembled(final, Items(es), n)
  }

  // --------------------------------------------------------------------- the code

  method AssembleResponsesBody(final: Response, items: map<nat, Item>, maxIndex: int) returns (out: Outcome)
    requires maxIndex >= -1 && Below(items, maxIndex + 1)
    ensures out == Assembled(final, items, maxIndex + 1)
  {
    if |items| == 0 {
      assert items == map[];
      return Written(final);
    }
    if final.Scalar? {
      return BadTerminal;
    }
    var ordered: seq<Item> := [];
    var i := 0;
    while i <= maxIndex
      invariant 0 <= i <= maxIndex + 1
      invariant ordered == Collect(items, i)
    {
      if i in items {
        ordered := ordered + [items[i]];
      }
      i := i + 1;
    }
    assert items != map[];
    if final.NullResponse? {
      return Panicked;
    }
    return Written(Object(final.fields[OUTPUT := Output(ordered)]));
  }

  /** `broken` tells that reading failed after the last event. `n` is one more than the
      highest index kept, 0 if there is none. */
  method WriteResponsesAggregated(status: int, es: seq<Event>, broken: bool) returns (out: Outcome, ghost n: nat)
    ensures Answers(status, es, broken, out)
    ensures out == Aggregated(status, es, broken, n)
    ensures status < 400 && !broken && LastTerminal(es).Some? ==> Tight(Items(es), n)
  {
    n := 0;
    if status >= 400 {
      return ErrorForwarded, 0;
    }
    var final: Option<Response> := None;
    var items: map<nat, Item> := map[];
    var maxIndex := -1;
    var i := 0;
    while i < |es|
      invariant 0 <= i <= |es|
      invariant items == Items(es[..i]) && final == LastTerminal(es[..i])
      invariant maxIndex >= -1 && Below(items, maxIndex + 1) && (maxIndex >= 0 ==> maxIndex in items)
    {
      assert es[..i + 1][..i] == es[..i];
      match es[i] {
        case Terminal(response) =>
          if response.Some? {
            final := response;
          }
        case ItemDone(item, index) =>
          if item.Some? && index >= 0 {
            items := items[index := item.value];
            if index > maxIndex {
              maxIndex := index;
            }
          }
        case Ignored =>
      }
      i := i + 1;
    }
    assert es[..i] == es;
    if broken {
      return ReadFailed, 0;
    }
    if final.None? {
      TerminalIsLast(es);
      return NoTerminal, 0;
    }
    n := maxIndex + 1;
    out := AssembleResponsesBody(final.value, items, maxIndex);
    AggregatedAnswers(status, es, broken, n);
  }

  // ------------------------------------------------------------------- theorems

  /** `at` lists every index in increasing order, and `out` the items there: nothing lost,
      nothing twice, nothing out of order. */
  ghost predicate InOrder(items: map<nat, Item>, out: seq<Item>, at: seq<nat>) {
    && |at| == |out|
    && (forall i :: 0 <= i < |at| ==> at[i] in items && out[i] == items[at[i]])
    && (forall i, j :: 0 <= i < j < |at| ==> at[i] < at[j])
    && (forall k :: k in items ==> k in at)
  }

  lemma {:induction false} CollectBelow(items: map<nat, Item>, n: nat) returns (at: seq<nat>)
    ensures |at| == |Collect(items, n)|
    ensures forall i :: 0 <= i < |at| ==> 0 <= at[i] < n && at[i] in items && Collect(items, n)[i] == items[at[i]]
    ensures forall i, j :: 0 <= i < j < |at| ==> at[i] < at[j]
    ensures forall k :: 0 <= k < n && k in items ==> k in at
  {
    if n == 0 {
      at := [];
    } else {
      at := CollectBelow(items, n - 1);
      if n - 1 in items {
        at := at + [n - 1];
      }
    }
  }

  /** The output is the last item of each index, in strictly increasing index order. */
  lemma OutputIsInOrder(items: map<nat, Item>, n: nat) returns (at: seq<nat>)
    requires Below(items, n)
    ensures InOrder(items, Collect(items, n), at)
  {
    at := CollectBelow(items, n);
  }

  /** An index's item is the last one carried for it. */
  ghost predicate LastFor(es: seq<Event>, index: int, item: Item) {
    exists i :: 0 <= i < |es| && es[i] == ItemDone(Some(item), index) && NoneAfter(es, i, index)
  }

  ghost predicate NoneAfter(es: seq<Event>, i: int, index: int) {
    index >= 0 && forall j :: 0 <= i < j < |es| ==> !SendsItem(es[j], index)
  }

  /** An item arrives for an index that is one. */
  predicate SendsItem(e: Event, index: int) { e.ItemDone? && e.item.Some? && e.index == index >= 0 }

  lemma {:induction false} ItemsAreLast(es: seq<Event>, index: int)
    ensures index in Items(es) ==> LastFor(es, index, Items(es)[index])
    ensures (exists i :: 0 <= i < |es| && SendsItem(es[i], index)) <==> index in Items(es)
  {
    if es != [] {
      var before, e := es[..|es| - 1], es[|es| - 1];
      ItemsAreLast(before, index);
      if e.Carries() && e.index == index {
        assert es[|es| - 1] == ItemDone(Some(e.item.value), index) && NoneAfter(es, |es| - 1, index);
      } else {
        if index in Items(before) {
          var i :| 0 <= i < |before| && before[i] == ItemDone(Some(Items(before)[index]), index)
                   && NoneAfter(before, i, index);
          assert es[i] == before[i] && NoneAfter(es, i, index);
        }
        if i :| 0 <= i < |es| && SendsItem(es[i], index) {
          assert before[i] == es[i];
        }
      }
    }
  }

  /** Each index is sent with one item only. */
  ghost predicate SentOnce(es: seq<Event>) {
    forall e, f :: e in es && f in es && e.Carries() && f.Carries() && e.index == f.index ==> e == f
  }

  lemma ItemsAreMembers(es: seq<Event>, index: int)
    requires SentOnce(es)
    ensures index in Items(es) ==> ItemDone(Some(Items(es)[index]), index) in es && index >= 0
    ensures forall e :: e in es && e.Carries() && e.index == index ==>
      index in Items(es) && Items(es)[index] == e.item.value
  {
    ItemsAreLast(es, index);
  }

  lemma {:induction false} TerminalIsMember(es: seq<Event>)
    ensures LastTerminal(es).Some? ==> Terminal(LastTerminal(es)) in es
    ensures LastTerminal(es).None? ==> forall e :: e in es ==> !e.Ends()
  {
    if es != [] {
      TerminalIsMember(es[..|es| - 1]);
      assert es == es[..|es| - 1] + [es[|es| - 1]];
    }
  }

  lemma SameItems(es: seq<Event>, fs: seq<Event>)
    requires SentOnce(es) && forall e :: e in es <==> e in fs
    ensures Items(es) == Items(fs)
  {
    assert SentOnce(fs);
    forall k ensures k in Items(es) <==> k in Items(fs) {
      ItemsAreMembers(es, k);
      ItemsAreMembers(fs, k);
    }
    forall k | k in Items(es) ensures Items(es)[k] == Items(fs)[k] {
      ItemsAreMembers(es, k);
      ItemsAreMembers(fs, k);
    }
  }

  lemma SameTerminal(es: seq<Event>, fs: seq<Event>)
    requires forall e, f :: e in es && f in es && e.Ends() && f.Ends() ==> e == f
    requires forall e :: e in es <==> e in fs
    ensures LastTerminal(es) == LastTerminal(fs)
  {
    TerminalIsMember(es);
    TerminalIsMember(fs);
    if LastTerminal(es).Some? && LastTerminal(fs).Some? {
      assert Terminal(LastTerminal(es)).Ends() && Terminal(LastTerminal(fs)).Ends();
    } else if LastTerminal(es).Some? {
      assert Terminal(LastTerminal(es)).Ends();
    } else if LastTerminal(fs).Some? {
      assert Terminal(LastTerminal(fs)).Ends();
    }
  }

  // ------------------------------- the answer, told from the events alone

  /** The last event that brings a terminal response brings this one. */
  ghost predicate EndsWith(es: seq<Event>, r: Response) {
    exists i :: 0 <= i < |es| && es[i] == Terminal(Some(r)) && NoTerminalAfter(es, i)
  }

  ghost predicate NoTerminalAfter(es: seq<Event>, i: int) {
    forall j :: 0 <= i < j < |es| ==> !(es[j].Terminal? && es[j].response.Some?)
  }

  /** The items in strictly increasing index order, each the last one sent for its index, and
      no index left out. */
  ghost predicate Orders(es: seq<Event>, items: seq<Item>, at: seq<nat>) {
    && |at| == |items|
    && (forall i, j :: 0 <= i < j < |at| ==> at[i] < at[j])
    && (forall i :: 0 <= i < |at| ==> LastFor(es, at[i], items[i]))
    && (forall i :: 0 <= i < |es| && es[i].ItemDone? && es[i].item.Some? && es[i].index >= 0 ==> es[i].index in at)
  }

  /** What the caller gets: an error passed on, a broken or unfinished stream, or the terminal
      response, into which the items go, if there are any, as its output. */
  ghost predicate Answers(status: int, es: seq<Event>, broken: bool, out: Outcome) {
    if status >= 400 then out == ErrorForwarded
    else if broken then out == ReadFailed
    else if forall i :: 0 <= i < |es| ==> !(es[i].Terminal? && es[i].response.Some?) then out == NoTerminal
    else exists r :: EndsWith(es, r) && Answered(es, r, out)
  }

  ghost predicate Answered(es: seq<Event>, r: Response, out: Outcome) {
    if forall i :: 0 <= i < |es| ==> !(es[i].ItemDone? && es[i].item.Some? && es[i].index >= 0) then out == Written(r)
    else
      match r
      case NullResponse => out == Panicked
      case Scalar(_) => out == BadTerminal
      case Object(f) =>
        exists items, at :: Orders(es, items, at) && out == Written(Object(f["output" := Output(items)]))
  }

  lemma {:induction false} TerminalIsLast(es: seq<Event>)
    ensures LastTerminal(es).Some? ==> EndsWith(es, LastTerminal(es).value)
    ensures LastTerminal(es).None? ==> forall i :: 0 <= i < |es| ==> !(es[i].Terminal? && es[i].response.Some?)
  {
    if es != [] {
      var before, e := es[..|es| - 1], es[|es| - 1];
      TerminalIsLast(before);
      if e.Ends() {
        assert es[|es| - 1] == Terminal(Some(e.response.value)) && NoTerminalAfter(es, |es| - 1);
      } else if LastTerminal(es).Some? {
        var i :| 0 <= i < |before| && before[i] == Terminal(LastTerminal(es)) && NoTerminalAfter(before, i);
        assert es[i] == before[i] && NoTerminalAfter(es, i);
      }
    }
  }

  lemma ItemsArePut(es: seq<Event>, n: nat) returns (at: seq<nat>)
    requires Below(Items(es), n)
    ensures Orders(es, Collect(Items(es), n), at)
  {
    at := OutputIsInOrder(Items(es), n);
    forall i | 0 <= i < |at| ensures LastFor(es, at[i], Collect(Items(es), n)[i]) {
      ItemsAreLast(es, at[i]);
    }
    forall i | 0 <= i < |es| && es[i].ItemDone? && es[i].item.Some? && es[i].index >= 0 ensures es[i].index in at {
      ItemsAreLast(es, es[i].index);
    }
  }

  lemma NoItems(es: seq<Event>)
    ensures Items(es) == map[] <==>
      forall i :: 0 <= i < |es| ==> !(es[i].ItemDone? && es[i].item.Some? && es[i].index >= 0)
  {
    if Items(es) == map[] {
      forall i | 0 <= i < |es| && es[i].ItemDone? ensures !(es[i].item.Some? && es[i].index >= 0) {
        ItemsAreLast(es, es[i].index);
      }
    } else {
      var k :| k in Items(es);
      ItemsAreLast(es, k);
    }
  }

  /** The outcome is the answer told from the events, for every stream. */
  lemma AggregatedAnswers(status: int, es: seq<Event>, broken: bool, n: nat)
    requires status < 400 && !broken && LastTerminal(es).Some? ==> Below(Items(es), n)
    ensures Answers(status, es, broken, Aggregated(status, es, broken, n))
  {
    TerminalIsLast(es);
    if status < 400 && !broken && LastTerminal(es).Some? {
      NoItems(es);
      var r := LastTerminal(es).value;
      if r.Object? && Items(es) != map[] {
        var at := ItemsArePut(es, n);
        assert Orders(es, Collect(Items(es), n), at);
      }
      assert Answered(es, r, Aggregated(status, es, broken, n));
    }
  }

  /** When each index is sent once, the order of arrival matters only as far as it changes
      which terminal response is the last. */
  lemma OrderOfArrivalIsIrrelevant(status: int, es: seq<Event>, fs: seq<Event>, broken: bool, n: nat, m: nat)
    requires SentOnce(es) && multiset(es) == multiset(fs) && LastTerminal(es) == LastTerminal(fs)
    requires Tight(Items(es), n) && Tight(Items(fs), m)
    ensures Aggregated(status, es, broken, n) == Aggregated(status, fs, broken, m)
  {
    forall e ensures e in es <==> e in fs {
      assert e in es <==> e in multiset(es);
      assert e in fs <==> e in multiset(fs);
    }
    SameItems(es, fs);
  }

  /** In particular not at all when there is only one terminal response. */
  lemma OneTerminalIsLast(es: seq<Event>, fs: seq<Event>)
    requires multiset(es) == multiset(fs)
    requires forall e, f :: e in es && f in es && e.Ends() && f.Ends() ==> e == f
    ensures LastTerminal(es) == LastTerminal(fs)
  {
    forall e ensures e in es <==> e in fs {
      assert e in es <==> e in multiset(es);
      assert e in fs <==> e in multiset(fs);
    }
    SameTerminal(es, fs);
  }

  /** A terminal response is needed, items need an object to go to, and the object's other
      fields are kept. */
  lemma OutcomeMeaning(status: int, es: seq<Event>, n: nat)
    requires status < 400 && Below(Items(es), n)
    ensures var out := Aggregated(status, es, false, n);
      && (out.NoTerminal? <==> forall e :: e in es ==> !e.Ends())
      && (out.Panicked? <==> LastTerminal(es) == Some(NullResponse) && exists e :: e in es && e.Carries())
      && (out.Written? && out.body.Object? && out.body != LastTerminal(es).value ==>
            LastTerminal(es).value.Object? && out.body.fields - {OUTPUT} == LastTerminal(es).value.fields - {OUTPUT})
  {
    TerminalIsMember(es);
    if LastTerminal(es).Some? {
      assert Terminal(LastTerminal(es)).Ends();
    }
    if Items(es) == map[] {
      forall e | e in es && e.ItemDone? ensures !e.Carries() {
        ItemsAreLast(es, e.index);
      }
    } else {
      var k :| k in Items(es);
      ItemsAreLast(es, k);
      var i :| 0 <= i < |es| && SendsItem(es[i], k);
      assert es[i] in es;
    }
  }

  /** A stream that hits the nil map: one item, then a terminal event whose response is
      null. */
  lemma NilMapIsHit(item: Item)
    ensures Aggregated(200, [ItemDone(Some(item), 0), Terminal(Some(NullResponse))], false, 1) == Panicked
  {
    var e, t := ItemDone(Some(item), 0), Terminal(Some(NullResponse));
    var es := [e, t];
    assert es[..1] == [e] && [e][..0] == [];
    assert Items([e]) == Items([])[0 := item];
    assert 0 in Items(es);
  }
}
