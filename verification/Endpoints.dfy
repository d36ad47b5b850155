/** Endpoint failover inside one account: Account.EndpointURLs of
    internal/service/provider/provider.go and Dispatch of
    internal/service/forward/forward.go. */
module Endpoints {
  import opened Common

  /** How one request to one URL ended; an answer brings an open body. */
  datatype Reached = Unreachable | Answer(status: int)

  predicate IsRetriable(status: int) { status >= 500 || status == 429 }

  predicate Failing(r: Reached) { r.Unreachable? || IsRetriable(r.status) }

  datatype Url = Url(text: string)

  datatype Account = Account(baseUrl: Url, endpoints: seq<Url>)

  /** The first occurrences of the first n elements. */
  function Distinct(xs: seq<Url>, n: nat): seq<Url>
    requires n <= |xs|
  {
    if n == 0 then []
    else if xs[n - 1] in xs[..n - 1] then Distinct(xs, n - 1)
    else Distinct(xs, n - 1) + [xs[n - 1]]
  }

  /** `ys` lists the elements of `xs` once each, in the order they first appear there. */
  ghost predicate FirstOccurrences(xs: seq<Url>, ys: seq<Url>) {
    && (forall x :: x in xs <==> x in ys)
    && exists at: seq<nat> :: Marks(xs, ys, at)
  }

  ghost predicate FirstAt(xs: seq<Url>, x: Url, p: nat) {
    p < |xs| && xs[p] == x && forall j :: 0 <= j < p ==> xs[j] != x
  }

  /** `at` holds the increasing positions of those first appearances. */
  ghost predicate Marks(xs: seq<Url>, ys: seq<Url>, at: seq<nat>) {
    && |at| == |ys| && (xs != [] ==> at != [] && at[0] == 0)
    && (forall i :: 0 <= i < |at| ==> FirstAt(xs, ys[i], at[i]))
    && (forall i, j :: 0 <= i < j < |at| ==> at[i] < at[j])
  }

  lemma MarksSnoc(xs: seq<Url>, ys: seq<Url>, at: seq<nat>, x: Url)
    requires Marks(xs, ys, at) && forall y :: y in xs <==> y in ys
    ensures x in xs ==> Marks(xs + [x], ys, at)
    ensures x !in xs ==> Marks(xs + [x], ys + [x], at + [|xs|])
  {
    forall i | 0 <= i < |at| ensures FirstAt(xs + [x], ys[i], at[i]) {
      assert FirstAt(xs, ys[i], at[i]);
    }
    if x !in xs {
      assert FirstAt(xs + [x], x, |xs|);
    }
  }

  lemma {:induction false} DistinctHasMarks(xs: seq<Url>, n: nat) returns (at: seq<nat>)
    requires n <= |xs|
    ensures Marks(xs[..n], Distinct(xs, n), at)
    ensures forall x :: x in xs[..n] <==> x in Distinct(xs, n)
  {
    if n == 0 {
      at := [];
    } else {
      at := DistinctHasMarks(xs, n - 1);
      MarksSnoc(xs[..n - 1], Distinct(xs, n - 1), at, xs[n - 1]);
      assert xs[..n] == xs[..n - 1] + [xs[n - 1]];
      if xs[n - 1] !in xs[..n - 1] {
        at := at + [n - 1];
      }
    }
  }

  lemma DistinctIsFirstOccurrences(xs: seq<Url>)
    ensures FirstOccurrences(xs, Distinct(xs, |xs|))
  {
    var at := DistinctHasMarks(xs, |xs|);
    assert xs[..|xs|] == xs;
  }

  /** First occurrences are duplicate-free and start with the first element. */
  lemma FirstOccurrencesAreDistinct(xs: seq<Url>, ys: seq<Url>)
    requires FirstOccurrences(xs, ys)
    ensures forall i, j :: 0 <= i < j < |ys| ==> ys[i] != ys[j]
    ensures xs != [] ==> ys != [] && ys[0] == xs[0]
  {
    var at :| Marks(xs, ys, at);
    forall i, j | 0 <= i < j < |ys| ensures ys[i] != ys[j] {
      assert FirstAt(xs, ys[i], at[i]) && FirstAt(xs, ys[j], at[j]) && at[i] < at[j];
    }
  }

  /** Every candidate URL, the account's own first. */
  function Candidates(a: Option<Account>): seq<Url> {
    if a.None? then [Url("")] else [a.value.baseUrl] + a.value.endpoints
  }

  function UrlList(a: Option<Account>): seq<Url> { Distinct(Candidates(a), |Candidates(a)|) }

  /** The list is duplicate-free, in order, complete, and starts with the account's URL. */
  lemma UrlListMeaning(a: Option<Account>)
    ensures FirstOccurrences(if a.None? then [Url("")] else [a.value.baseUrl] + a.value.endpoints, UrlList(a))
    ensures |UrlList(a)| >= 1 && UrlList(a)[0] == if a.None? then Url("") else a.value.baseUrl
    ensures forall i, j :: 0 <= i < j < |UrlList(a)| ==> UrlList(a)[i] != UrlList(a)[j]
  {
    DistinctIsFirstOccurrences(Candidates(a));
    FirstOccurrencesAreDistinct(Candidates(a), UrlList(a));
  }

  lemma UrlListIsNonempty(a: Option<Account>)
    ensures UrlList(a) != []
  {
    UrlListMeaning(a);
  }

  method EndpointURLs(a: Option<Account>) returns (out: seq<Url>)
    ensures out == UrlList(a)
  {
    ghost var all := Candidates(a);
    assert Distinct(all, 1) == [all[0]] by { assert Distinct(all, 0) == []; }
    if a.None? {
      return [Url("")];
    }
    var seen := {a.value.baseUrl};
    out := [a.value.baseUrl];
    var i := 0;
    while i < |a.value.endpoints|
      invariant 0 <= i <= |a.value.endpoints|
      invariant forall x :: x in seen <==> x in all[..i + 1]
      invariant out == Distinct(all, i + 1)
    {
      var e := a.value.endpoints[i];
      assert all[i + 1] == e && all[..i + 2] == all[..i + 1] + [e];
      if e !in seen {
        seen := seen + {e};
        out := out + [e];
      }
      i := i + 1;
    }
  }

  /** The first k URLs cannot be reached, or answer 429 or 500 and above. */
  ghost predicate AllFail(reach: nat -> Reached, k: nat) {
    forall i :: 0 <= i < k ==> reach(i).Unreachable? || reach(i).status == 429 || reach(i).status >= 500
  }

  /** The endpoint whose outcome is the account's: the first that does not fail so, or the
      last one. */
  ghost predicate Decides(reach: nat -> Reached, n: nat, k: nat) {
    && k < n
    && AllFail(reach, k)
    && (reach(k).Unreachable? || reach(k).status == 429 || reach(k).status >= 500 ==> k == n - 1)
  }

  /** `reach(i)` is what the i-th URL answers. The URLs asked are the list's first k + 1
      in order, and of all the bodies opened only the returned one is still open. */
  method Dispatch(a: Option<Account>, reach: nat -> Reached)
    returns (r: Reached, asked: seq<Url>, open: set<nat>, urls: seq<Url>, k: nat)
    ensures urls == UrlList(a)
    ensures Decides(reach, |urls|, k)
    ensures r == reach(k) && asked == urls[..k + 1]
    ensures open == if r.Answer? then {k} else {}
  {
    urls := EndpointURLs(a);
    UrlListIsNonempty(a);
    asked, open, k := [], {}, 0;
    while true
      invariant k < |urls| && asked == urls[..k] && open == {}
      invariant AllFail(reach, k)
      decreases |urls| - k
    {
      var last := k == |urls| - 1;
      asked := asked + [urls[k]];
      assert asked == urls[..k + 1];
      r := reach(k);
      if r.Unreachable? {
        if last {
          return;
        }
        k := k + 1;
        continue;
      }
      open := open + {k};
      if last || !IsRetriable(r.status) {
        return;
      }
      open := open - {k};
      k := k + 1;
    }
  }

  /** The deciding endpoint is unique, so the outcome depends on nothing else. */
  lemma DecidesOnce(reach: nat -> Reached, n: nat, j: nat, k: nat)
    requires Decides(reach, n, j) && Decides(reach, n, k)
    ensures j == k
  {
  }

  /** That endpoint, looked for from the i-th on. */
  function Deciding(reach: nat -> Reached, n: nat, i: nat): (k: nat)
    requires i < n
    ensures i <= k < n
    decreases n - i
  {
    if i == n - 1 || !Failing(reach(i)) then i else Deciding(reach, n, i + 1)
  }

  lemma {:induction false} DecidingDecides(reach: nat -> Reached, n: nat, i: nat)
    requires i < n && AllFail(reach, i)
    ensures Decides(reach, n, Deciding(reach, n, i))
    decreases n - i
  {
    if i < n - 1 && Failing(reach(i)) {
      DecidingDecides(reach, n, i + 1);
    }
  }

  /** How many URLs one dispatch asks. */
  function Requests(a: Account, reach: nat -> Reached): (k: nat)
    ensures 1 <= k <= |UrlList(Some(a))|
  {
    UrlListIsNonempty(Some(a));
    Deciding(reach, |UrlList(Some(a))|, 0) + 1
  }

  /** How one dispatch ends. */
  function Outcome(a: Account, reach: nat -> Reached): Reached { reach(Requests(a, reach) - 1) }

  /** A dispatch ends unreachable, or with 429 or 500 and above, only when every one of the
      account's URLs does, each of which has then been asked. */
  lemma FailsOnlyIfAllFail(a: Account, reach: nat -> Reached)
    ensures var n, r := |UrlList(Some(a))|, Outcome(a, reach);
      && (Failing(r) <==> AllFail(reach, n))
      && (r.Unreachable? || r.status == 429 || r.status >= 500 <==> AllFail(reach, n))
      && (AllFail(reach, n) ==> Requests(a, reach) == n)
  {
    UrlListIsNonempty(Some(a));
    DecidingDecides(reach, |UrlList(Some(a))|, 0);
  }

  /** Dispatch computes that outcome and asks that many. */
  lemma DispatchIsOutcome(a: Account, reach: nat -> Reached, k: nat)
    requires Decides(reach, |UrlList(Some(a))|, k)
    ensures reach(k) == Outcome(a, reach) && k + 1 == Requests(a, reach)
  {
    DecidingDecides(reach, |UrlList(Some(a))|, 0);
    DecidesOnce(reach, |UrlList(Some(a))|, k, Requests(a, reach) - 1);
  }
}
