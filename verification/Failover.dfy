/** The retry loop of internal/handler/gateway/anthropic.go: accounts are tried until one
    response is committed to the client, with one forced token refresh and one rectified
    retry per request. Upstream outcomes come from an arbitrary oracle. */
module Failover {
  import opened Common
  import opened Endpoints

  const MAX_FAILOVER_ATTEMPTS := 3

  /** configuredFailoverAttempts; None stands for absent settings. */
  function ConfiguredAttempts(setting: Option<int>): (n: int)
    ensures 1 <= n <= 10
    ensures setting.None? ==> n == 3
    ensures setting.Some? ==> n == setting.value || (n == 1 > setting.value) || (n == 10 < setting.value)
  {
    if setting.None? then MAX_FAILOVER_ATTEMPTS
    else if setting.value < 1 then 1
    else if setting.value > 10 then 10
    else setting.value
  }

  /** A resolved account. A token refresh keeps its id, its kind and its URLs. */
  datatype Candidate = Candidate(id: int, oauth: bool, account: Account)

  datatype Resolution = Found(c: Candidate) | NoUpstream | ResolverError

  /** Everything the outside world may answer during one attempt; a dispatch may ask each of
      the account's URLs, the i-th of which then answers `first(i)`, and so on. */
  datatype Attempt = Attempt(
    ready: bool, slot: bool, first: nat -> Reached,
    refreshed: bool, second: nat -> Reached,
    signatureError: bool, third: nat -> Reached,
    writeFailed: bool)
  {
    function First(c: Candidate): Reached { Outcome(c.account, first) }
    function Second(c: Candidate): Reached { Outcome(c.account, second) }
    function Third(c: Candidate): Reached { Outcome(c.account, third) }
  }

  datatype World = World(resolve: (nat, seq<int>) -> Resolution, at: nat -> Attempt, tokens: bool)

  ghost predicate HonoursExclusion(w: World) {
    forall n, tried :: w.resolve(n, tried).Found? ==> w.resolve(n, tried).c.id !in tried
  }

  // ------------------------------------------------------------ what a run must do

  datatype Health = Health(id: int, ok: bool)

  datatype Event =
    | Tries(id: int)
    | Takes(id: int)
    | Releases(id: int)
    | Dispatches(id: int, answer: Reached, rectified: bool, asked: nat, left: set<nat>)
    | Closes(body: nat)
    | Parks(id: int)
    | Records(health: Health)
    | Commits(id: int, source: Option<nat>, text: int, status: int, writeFailed: bool)
    | Refuses(status: int)

  /** What an observer of the events knows: the dispatches and the requests they made, the
      bodies still open, the slots held, the accounts tried, the health reports, the report and
      the cooldown that are still owed, and the body text and the status the client was sent.
      `valid` fails at the first misuse. Body n belongs to dispatch n. */
  datatype Seen = Seen(
    valid: bool, dispatches: nat, requests: nat, open: set<nat>, slots: seq<int>, tried: seq<int>,
    reports: seq<Health>, owed: Option<Health>, park: Option<int>,
    replies: nat, shown: Option<int>, sent: Option<int>)
  {
    predicate Settled() { owed.None? && park.None? && replies == 0 }
  }

  const NOTHING_SEEN := Seen(true, 0, 0, {}, [], [], [], None, None, 0, None, None)

  /** Committed 2xx and 3xx count for the account, 5xx and 429 against it, other 4xx not
      at all, and a failed write only when there was no status. */
  function HealthAfterWrite(id: int, status: int, failed: bool): Option<Health> {
    if failed && status == 0 then Some(Health(id, false))
    else if 200 <= status < 400 then Some(Health(id, true))
    else if IsRetriable(status) then Some(Health(id, false))
    else None
  }

  function Watch(m: Seen, e: Event): Seen {
    match e
    case Tries(id) => m.(valid := m.valid && m.Settled() && m.open == {}, tried := m.tried + [id])
    case Takes(id) => m.(slots := m.slots + [id])
    case Releases(id) =>
      if m.slots == [] then m.(valid := false)
      else m.(valid := m.valid && m.slots[|m.slots| - 1] == id, slots := m.slots[..|m.slots| - 1])
    case Dispatches(id, answer, rectified, asked, left) =>
      m.(valid := m.valid && m.Settled() && id in m.slots && m.tried != [] && m.tried[|m.tried| - 1] == id
                  && asked > 0 && left == if answer.Answer? then {asked - 1} else {},
         dispatches := m.dispatches + 1,
         requests := m.requests + asked,
         open := if answer.Answer? then m.open + {m.dispatches} else m.open,
         owed := if Failing(answer) && !rectified then Some(Health(id, false)) else None,
         park := if answer == Answer(429) && !rectified then Some(id) else None)
    case Closes(body) => m.(valid := m.valid && body in m.open, open := m.open - {body})
    case Parks(id) => m.(valid := m.valid && m.park == Some(id), park := None)
    case Records(h) => m.(valid := m.valid && m.owed == Some(h), owed := None, reports := m.reports + [h])
    case Commits(id, body, text, status, failed) =>
      m.(valid := m.valid && m.Settled() && (body.Some? ==> body.value in m.open && body.value == text),
         open := if body.Some? then m.open - {body.value} else m.open,
         owed := HealthAfterWrite(id, status, failed),
         replies := m.replies + 1,
         shown := Some(text),
         sent := Some(status))
    case Refuses(status) =>
      m.(valid := m.valid && m.Settled(), replies := m.replies + 1, sent := Some(status))
  }

  function Observe(trace: seq<Event>): Seen {
    if trace == [] then NOTHING_SEEN else Watch(Observe(trace[..|trace| - 1]), trace[|trace| - 1])
  }

  lemma ObserveSnoc(trace: seq<Event>, e: Event)
    ensures Observe(trace + [e]) == Watch(Observe(trace), e)
  {
    assert (trace + [e])[..|trace|] == trace;
  }

  // ------------------------------------------------------- what the client must get

  /** `kept` tells that the client is shown a rejection whose rectified retry went nowhere. */
  datatype Verdict = Committed(status: int, kept: bool) | Failed(bad: int) | Busy

  /** EnsureFresh lets the attempt go ahead. */
  predicate Ready(w: World, c: Candidate, a: Attempt) { w.tokens && c.oauth ==> a.ready }

  /** The first answer calls for a forced refresh. */
  predicate Expired(w: World, c: Candidate, a: Attempt, refreshed: bool) {
    a.First(c) == Answer(401) && w.tokens && c.oauth && !refreshed
  }

  predicate Refreshes(w: World, c: Candidate, a: Attempt, refreshed: bool) {
    Ready(w, c, a) && a.slot && Expired(w, c, a, refreshed)
  }

  /** What an answer leads to, before and after rectification. */
  function JudgeAnswer(c: Candidate, a: Attempt, answer: Reached): Verdict {
    match answer
    case Unreachable => Failed(0)
    case Answer(s) =>
      if IsRetriable(s) then Failed(s)
      else if s == 400 && a.signatureError && a.Third(c).Answer? then Committed(a.Third(c).status, false)
      else Committed(s, s == 400 && a.signatureError)
  }

  function JudgeExchange(w: World, c: Candidate, a: Attempt, refreshed: bool): Verdict {
    if !Expired(w, c, a, refreshed) then JudgeAnswer(c, a, a.First(c))
    else if !a.refreshed then Failed(401)
    else JudgeAnswer(c, a, a.Second(c))
  }

  function Judge(w: World, c: Candidate, a: Attempt, refreshed: bool): Verdict {
    if !Ready(w, c, a) then Failed(0)
    else if !a.slot then Busy
    else JudgeExchange(w, c, a, refreshed)
  }

  /** Dispatches, and the requests they made. */
  datatype Effort = Effort(dispatches: nat, requests: nat) {
    function Plus(e: Effort): Effort { Effort(dispatches + e.dispatches, requests + e.requests) }
  }

  const NONE := Effort(0, 0)

  function Once(c: Candidate, reach: nat -> Reached): Effort { Effort(1, Requests(c.account, reach)) }

  function Rectifying(c: Candidate, a: Attempt, answer: Reached): Effort {
    if answer == Answer(400) && a.signatureError then Once(c, a.third) else NONE
  }

  /** What may follow the first dispatch. */
  function FurtherCost(w: World, c: Candidate, a: Attempt, refreshed: bool): Effort {
    if !Expired(w, c, a, refreshed) then Rectifying(c, a, a.First(c))
    else if !a.refreshed then NONE
    else Once(c, a.second).Plus(Rectifying(c, a, a.Second(c)))
  }

  function CostOfExchange(w: World, c: Candidate, a: Attempt, refreshed: bool): Effort {
    Once(c, a.first).Plus(FurtherCost(w, c, a, refreshed))
  }

  function Cost(w: World, c: Candidate, a: Attempt, refreshed: bool): Effort {
    if Ready(w, c, a) && a.slot then CostOfExchange(w, c, a, refreshed) else NONE
  }

  function Listed(h: Option<Health>): seq<Health> { if h.Some? then [h.value] else [] }

  /** The reports on the account that an answer leads to, once it is judged. */
  function ReportsOfAnswer(c: Candidate, a: Attempt, answer: Reached): seq<Health> {
    match JudgeAnswer(c, a, answer)
    case Committed(status, _) => Listed(HealthAfterWrite(c.id, status, a.writeFailed))
    case _ => [Health(c.id, false)]
  }

  function ReportsOfExchange(w: World, c: Candidate, a: Attempt, refreshed: bool): seq<Health> {
    if !Expired(w, c, a, refreshed) then ReportsOfAnswer(c, a, a.First(c))
    else if !a.refreshed then []
    else ReportsOfAnswer(c, a, a.Second(c))
  }

  function Reports(w: World, c: Candidate, a: Attempt, refreshed: bool): seq<Health> {
    if Ready(w, c, a) && a.slot then ReportsOfExchange(w, c, a, refreshed) else []
  }

  /** The status to remember after an attempt that did not commit. */
  function Carry(v: Verdict, bad: int): int { if v.Failed? then v.bad else bad }

  function Exhausted(bad: int): int { if bad == 429 then 429 else 502 }

  /** The body shown after n dispatches: that of the last one, or the one before. */
  function ShownBody(kept: bool, n: int): int { if kept then n - 2 else n - 1 }

  /** What a request has come to: the accounts tried, the flag of the one refresh, the last
      bad status, the effort spent, the health reports made, the reply once there is one, and
      the upstream body it shows, if any. */
  datatype Progress = Progress(
    tried: seq<int>, refreshed: bool, bad: int, spent: Effort, reports: seq<Health>,
    reply: Option<int>, shown: Option<int>)

  const START := Progress([], false, 0, NONE, [], None, None)

  function Judged(p: Progress, id: int, v: Verdict, refreshes: bool, cost: Effort, reports: seq<Health>): Progress {
    var spent := p.spent.Plus(cost);
    Progress(p.tried + [id], p.refreshed || refreshes, Carry(v, p.bad), spent, p.reports + reports,
             if v.Committed? then Some(v.status) else None,
             if v.Committed? then Some(ShownBody(v.kept, spent.dispatches)) else None)
  }

  function Advance(w: World, p: Progress, n: nat): Progress {
    if p.reply.Some? then p
    else
      match w.resolve(n, p.tried)
      case NoUpstream => p.(reply := Some(if n == 0 then 503 else Exhausted(p.bad)))
      case ResolverError => p.(reply := Some(500))
      case Found(c) =>
        var a := w.at(n);
        Judged(p, c.id, Judge(w, c, a, p.refreshed), Refreshes(w, c, a, p.refreshed),
               Cost(w, c, a, p.refreshed), Reports(w, c, a, p.refreshed))
  }

  function After(w: World, n: nat): Progress {
    if n == 0 then START else Advance(w, After(w, n - 1), n - 1)
  }

  /** The status the client gets within `max` attempts. */
  function Reply(w: World, max: nat): int {
    var p := After(w, max);
    if p.reply.Some? then p.reply.value else Exhausted(p.bad)
  }

  // ------------------------------------------------------------------- the handler

  class Handler {
    var trace: seq<Event>
    var bodies: nat
    ghost var requests: nat
    var held: seq<int>          // deferred releases
    var attempted: seq<int>
    var lastBadStatus: int
    var authRefreshed: bool
    var signatureRectified: bool

    constructor ()
      ensures AtHead() && attempted == [] && held == [] && Spent() == NONE && View().reports == []
      ensures lastBadStatus == 0 && !authRefreshed
    {
      trace, bodies, requests, held, attempted := [], 0, 0, [], [];
      lastBadStatus, authRefreshed, signatureRectified := 0, false, false;
    }

    ghost function View(): Seen
      reads this
    {
      Observe(trace)
    }

    ghost function Spent(): Effort
      reads this
    {
      Effort(bodies, requests)
    }

    /** What was spent since there were `b` bodies and `r` requests. */
    ghost predicate SpentSince(b: nat, r: nat, e: Effort)
      reads this
    {
      bodies == b + e.dispatches && requests == r + e.requests
    }

    /** Before the reply: nothing owed, nothing said to the client. */
    ghost predicate Sees(open: set<nat>, tried: seq<int>)
      reads this
    {
      View() == Seen(true, bodies, requests, open, held, tried, View().reports, None, None, 0, None, None)
    }

    /** The head of the loop: nothing open either. */
    ghost predicate AtHead()
      reads this
    {
      Sees({}, attempted) && !signatureRectified
    }

    /** After the reply. */
    ghost predicate Answered(tried: seq<int>, shown: Option<int>, status: int)
      reads this
    {
      View() == Seen(true, bodies, requests, {}, held, tried, View().reports, None, None, 1, shown, Some(status))
    }

    /** How a turn with verdict `v` leaves the handler. */
    ghost predicate Leaves(v: Verdict, done: bool, status: int, tried: seq<int>, bad: int)
      reads this
    {
      if v.Committed?
      then done && status == v.status && Answered(tried, Some(ShownBody(v.kept, bodies)), status)
      else !done && AtHead() && attempted == tried && lastBadStatus == Carry(v, bad)
    }

    method Emit(e: Event)
      modifies this`trace
      ensures View() == Watch(old(View()), e)
    {
      ObserveSnoc(trace, e);
      trace := trace + [e];
    }

    /** One dispatch, which asks the account's URLs in turn; whatever bodies that opens, at
        most one is left. */
    method Dispatch(c: Candidate, reach: nat -> Reached, rectified: bool) returns (answer: Reached, body: nat)
      requires View().dispatches == bodies && View().requests == requests
      requires View().valid && View().Settled() && c.id in View().slots
      requires View().tried != [] && View().tried[|View().tried| - 1] == c.id
      modifies this`trace, this`bodies, this`requests
      ensures answer == Outcome(c.account, reach)
      ensures body == old(bodies) && SpentSince(old(bodies), old(requests), Once(c, reach))
      ensures View() == old(View()).(
        dispatches := bodies, requests := requests,
        open := if answer.Answer? then old(View()).open + {body} else old(View()).open,
        owed := if Failing(answer) && !rectified then Some(Health(c.id, false)) else None,
        park := if answer == Answer(429) && !rectified then Some(c.id) else None)
    {
      var asked, open, urls, k;
      answer, asked, open, urls, k := Endpoints.Dispatch(Some(c.account), reach);
      DispatchIsOutcome(c.account, reach, k);
      body := bodies;
      Emit(Dispatches(c.id, answer, rectified, |asked|, open));
      bodies, requests := bodies + 1, requests + |asked|;
    }

    /** A failing dispatch: close the body, park a rate-limited account, count the failure
        and move on to the next account. */
    method Abandon(id: int, answer: Reached, body: nat)
      requires Failing(answer)
      requires View().valid && View().owed == Some(Health(id, false))
      requires View().park == if answer == Answer(429) then Some(id) else None
      requires answer.Answer? ==> body in View().open
      modifies this`trace, this`attempted, this`lastBadStatus
      ensures View() == old(View()).(owed := None, park := None,
        open := if answer.Answer? then old(View()).open - {body} else old(View()).open,
        reports := old(View()).reports + [Health(id, false)])
      ensures attempted == old(attempted) + [id]
      ensures lastBadStatus == if answer.Answer? then answer.status else 0
    {
      if answer.Answer? {
        Emit(Closes(body));
        if answer.status == 429 {
          Emit(Parks(id));
        }
      }
      Emit(Records(Health(id, false)));
      attempted := attempted + [id];
      lastBadStatus := if answer.Answer? then answer.status else 0;
    }

    /** The thinking-signature rectifier: at most one more dispatch to the same account. A
        rejected body is read and closed, and replayed from memory if it is what the client
        gets after all. */
    method Rectify(c: Candidate, a: Attempt, status: int, body: nat)
      returns (status': int, source: Option<nat>, text: int)
      requires Sees({body}, attempted + [c.id]) && c.id in held
      requires !signatureRectified && body == bodies - 1
      modifies this`trace, this`bodies, this`requests, this`signatureRectified
      ensures status' == if status == 400 && a.signatureError && a.Third(c).Answer? then a.Third(c).status else status
      ensures text == if status == 400 && a.signatureError && a.Third(c).Answer? then old(bodies) else body
      ensures SpentSince(old(bodies), old(requests), Rectifying(c, a, Answer(status)))
      ensures Sees(if source.Some? then {source.value} else {}, attempted + [c.id])
      ensures View().reports == old(View()).reports && (source.Some? ==> source.value == text)
    {
      if status != 400 || signatureRectified {
        return status, Some(body), body;
      }
      Emit(Closes(body));
      if !a.signatureError {
        return status, None, body;
      }
      var answer, retryBody := Dispatch(c, a.third, true);
      if answer.Unreachable? {
        return status, None, body;
      }
      signatureRectified := true;
      return answer.status, Some(retryBody), retryBody;
    }

    method Commit(id: int, source: Option<nat>, text: int, status: int, writeFailed: bool)
      requires View().valid && View().Settled()
      requires View().open == (if source.Some? then {source.value} else {}) && (source.Some? ==> source.value == text)
      modifies this`trace
      ensures View() == old(View()).(open := {}, replies := 1, shown := Some(text), sent := Some(status),
        reports := old(View()).reports + Listed(HealthAfterWrite(id, status, writeFailed)))
    {
      Emit(Commits(id, source, text, status, writeFailed));
      if writeFailed && status == 0 {
        Emit(Records(Health(id, false)));
      } else if 200 <= status < 400 {
        Emit(Records(Health(id, true)));
      } else if status >= 500 || status == 429 {
        Emit(Records(Health(id, false)));
      }
    }

    /** A 401 from an OAuth account: one forced refresh per request, then the same account
        again. `status` is None when the attempt is over. */
    method RetryAfterRefresh(c: Candidate, a: Attempt, body: nat) returns (status: Option<int>, retryBody: nat)
      requires Sees({body}, attempted + [c.id]) && c.id in held && body < bodies
      modifies this`trace, this`bodies, this`requests, this`authRefreshed, this`attempted, this`lastBadStatus
      ensures authRefreshed && SpentSince(old(bodies), old(requests), if a.refreshed then Once(c, a.second) else NONE)
      ensures status == if a.refreshed && !Failing(a.Second(c)) then Some(a.Second(c).status) else None
      ensures View().reports == old(View()).reports
        + if a.refreshed && Failing(a.Second(c)) then [Health(c.id, false)] else []
      ensures status.Some? ==>
        retryBody == bodies - 1 && attempted == old(attempted) && Sees({retryBody}, attempted + [c.id])
      ensures status.None? ==>
        && attempted == old(attempted) + [c.id] && Sees({}, attempted)
        && lastBadStatus == if !a.refreshed then 401 else if a.Second(c).Answer? then a.Second(c).status else 0
    {
      authRefreshed := true;
      Emit(Closes(body));
      retryBody := body;
      if !a.refreshed {
        attempted := attempted + [c.id];
        lastBadStatus := 401;
        return None, body;
      }
      var answer;
      answer, retryBody := Dispatch(c, a.second, false);
      if Failing(answer) {
        Abandon(c.id, answer, retryBody);
        return None, retryBody;
      }
      return Some(answer.status), retryBody;
    }

    /** A response that is not retriable: rectified if need be, and committed. */
    method Settle(c: Candidate, a: Attempt, answered: int, body: nat) returns (status: int)
      requires Sees({body}, attempted + [c.id])
      requires c.id in held && body == bodies - 1 && !signatureRectified && !IsRetriable(answered)
      modifies this`trace, this`bodies, this`requests, this`signatureRectified
      ensures var v := JudgeAnswer(c, a, Answer(answered));
        && v.Committed? && status == v.status
        && Answered(attempted + [c.id], Some(ShownBody(v.kept, bodies)), status)
      ensures SpentSince(old(bodies), old(requests), Rectifying(c, a, Answer(answered)))
      ensures View().reports == old(View()).reports + ReportsOfAnswer(c, a, Answer(answered))
    {
      var source, text;
      status, source, text := Rectify(c, a, answered, body);
      Commit(c.id, source, text, status, a.writeFailed);
    }

    /** From the first dispatch of an attempt to the commit, if it comes to that. */
    method Exchange(w: World, c: Candidate, a: Attempt) returns (done: bool, status: int)
      requires Sees({}, attempted + [c.id]) && c.id in held && !signatureRectified
      modifies this`trace, this`bodies, this`requests, this`attempted, this`lastBadStatus
      modifies this`authRefreshed, this`signatureRectified
      ensures SpentSince(old(bodies), old(requests), CostOfExchange(w, c, a, old(authRefreshed)))
      ensures View().reports == old(View()).reports + ReportsOfExchange(w, c, a, old(authRefreshed))
      ensures authRefreshed == (old(authRefreshed) || Expired(w, c, a, old(authRefreshed)))
      ensures Leaves(JudgeExchange(w, c, a, old(authRefreshed)), done, status,
                     old(attempted) + [c.id], old(lastBadStatus))
    {
      done, status := false, 0;
      var answer, body := Dispatch(c, a.first, false);
      if Failing(answer) {
        Abandon(c.id, answer, body);
        return;
      }
      done, status := Proceed(w, c, a, answer.status, body);
    }

    /** With a first answer that is not retriable. */
    method Proceed(w: World, c: Candidate, a: Attempt, answered: int, first: nat) returns (done: bool, status: int)
      requires Sees({first}, attempted + [c.id]) && c.id in held && !signatureRectified
      requires a.First(c) == Answer(answered) && !IsRetriable(answered) && first == bodies - 1
      modifies this`trace, this`bodies, this`requests, this`attempted, this`lastBadStatus
      modifies this`authRefreshed, this`signatureRectified
      ensures SpentSince(old(bodies), old(requests), FurtherCost(w, c, a, old(authRefreshed)))
      ensures View().reports == old(View()).reports + ReportsOfExchange(w, c, a, old(authRefreshed))
      ensures authRefreshed == (old(authRefreshed) || Expired(w, c, a, old(authRefreshed)))
      ensures Leaves(JudgeExchange(w, c, a, old(authRefreshed)), done, status,
                     old(attempted) + [c.id], old(lastBadStatus))
    {
      done, status := false, answered;
      var body := first;
      if status == 401 && w.tokens && c.oauth && !authRefreshed {
        var retried;
        retried, body := RetryAfterRefresh(c, a, body);
        if retried.None? {
          return;
        }
        status := retried.value;
      }
      status := Settle(c, a, status, body);
      done := true;
    }

    /** One turn of the loop with a resolved account. */
    method Attempt(w: World, c: Candidate, a: Attempt) returns (done: bool, status: int)
      requires AtHead()
      modifies this
      ensures SpentSince(old(bodies), old(requests), Cost(w, c, a, old(authRefreshed)))
      ensures View().reports == old(View()).reports + Reports(w, c, a, old(authRefreshed))
      ensures authRefreshed == (old(authRefreshed) || Refreshes(w, c, a, old(authRefreshed)))
      ensures Leaves(Judge(w, c, a, old(authRefreshed)), done, status, old(attempted) + [c.id], old(lastBadStatus))
    {
      done, status := false, 0;
      Emit(Tries(c.id));
      assert Sees({}, attempted + [c.id]) && View().reports == old(View()).reports;
      if w.tokens && c.oauth && !a.ready {
        attempted := attempted + [c.id];
        lastBadStatus := 0;
        return;
      }
      if !a.slot {
        attempted := attempted + [c.id];
        return;
      }
      Emit(Takes(c.id));
      held := held + [c.id];
      assert Sees({}, attempted + [c.id]) && View().reports == old(View()).reports;
      done, status := Exchange(w, c, a);
    }

    /** The deferred releases, last in first out. */
    method ReleaseAll()
      requires View().valid && View().slots == held
      modifies this`trace, this`held
      ensures View() == old(View()).(slots := []) && held == []
    {
      while held != []
        invariant View() == old(View()).(slots := held)
        decreases |held|
      {
        Emit(Releases(held[|held| - 1]));
        held := held[..|held| - 1];
      }
    }

    /** The handler's own account of the request, before the reply. */
    ghost function Here(): Progress
      reads this
    {
      Progress(attempted, authRefreshed, lastBadStatus, Spent(), View().reports, None, None)
    }

    /** The request has been answered, and come to `p`. */
    ghost predicate Replied(p: Progress, status: int)
      reads this
    {
      && p.reply == Some(status) && Answered(p.tried, p.shown, status)
      && Spent() == p.spent && View().reports == p.reports
    }

    /** A turn that cost and reported so much takes the request from `p` on. */
    lemma Comes(p: Progress, id: int, v: Verdict, refreshes: bool, cost: Effort, reports: seq<Health>,
                done: bool, status: int)
      requires Leaves(v, done, status, p.tried + [id], p.bad) && View().reports == p.reports + reports
      requires SpentSince(p.spent.dispatches, p.spent.requests, cost) && authRefreshed == (p.refreshed || refreshes)
      ensures var p' := Judged(p, id, v, refreshes, cost, reports);
        if done then Replied(p', status) else AtHead() && p' == Here()
    {
    }

    /** One turn of the loop, which takes the request from p to Advance(w, p, attempt). */
    method Turn(w: World, attempt: nat, ghost p: Progress) returns (done: bool, status: int)
      requires AtHead() && p == Here()
      modifies this
      ensures if done then Replied(Advance(w, p, attempt), status) else AtHead() && Advance(w, p, attempt) == Here()
    {
      var r := w.resolve(attempt, attempted);
      if !r.Found? {
        status := if r.ResolverError? then 500 else if attempt == 0 then 503 else Exhausted(lastBadStatus);
        Emit(Refuses(status));
        return true, status;
      }
      var a := w.at(attempt);
      done, status := Attempt(w, r.c, a);
      Comes(p, r.c.id, Judge(w, r.c, a, p.refreshed), Refreshes(w, r.c, a, p.refreshed),
            Cost(w, r.c, a, p.refreshed), Reports(w, r.c, a, p.refreshed), done, status);
    }

    /** The whole request. Whatever upstreams do, the client gets one response, which is the
        expected one; every body is closed or committed; every slot is returned; the accounts
        tried, the dispatches, their requests and the health reports are the ones expected. */
    method Serve(w: World, max: nat) returns (status: int)
      requires AtHead() && Here() == START && held == []
      modifies this
      ensures status == Reply(w, max)
      ensures var p := After(w, max);
        View() == Seen(true, p.spent.dispatches, p.spent.requests, {}, [], p.tried,
                       p.reports, None, None, 1, p.shown, Some(status))
    {
      var done;
      done, status := TryAll(w, max);
      if !done {
        status := Exhausted(lastBadStatus);
        Emit(Refuses(status));
      }
      ReleaseAll();
    }

    /** The loop itself: at most `max` attempts, up to the first that answers. */
    method TryAll(w: World, max: nat) returns (done: bool, status: int)
      requires AtHead() && Here() == START
      modifies this
      ensures if done then Replied(After(w, max), status) else AtHead() && After(w, max) == Here()
    {
      done, status := false, 0;
      var attempt := 0;
      while attempt < max
        invariant AtHead() && attempt <= max
        invariant After(w, attempt) == Here()
      {
        done, status := Turn(w, attempt, After(w, attempt));
        attempt := attempt + 1;
        if done {
          OnceAnswered(w, attempt, max);
          return;
        }
      }
      done := false;
    }
  }

  lemma {:induction false} OnceAnswered(w: World, n: nat, max: nat)
    requires n <= max && After(w, n).reply.Some?
    ensures After(w, max) == After(w, n)
  {
    if n < max {
      OnceAnswered(w, n, max - 1);
    }
  }

  /** Each account tried is what the resolver chose when told all the earlier ones. */
  predicate Asked(w: World, tried: seq<int>) {
    tried == [] ||
    var before := tried[..|tried| - 1];
    && Asked(w, before)
    && w.resolve(|before|, before).Found? && w.resolve(|before|, before).c.id == tried[|before|]
  }

  lemma OneMoreAsked(w: World, tried: seq<int>)
    requires Asked(w, tried) && w.resolve(|tried|, tried).Found?
    ensures Asked(w, tried + [w.resolve(|tried|, tried).c.id])
  {
    assert (tried + [w.resolve(|tried|, tried).c.id])[..|tried|] == tried;
  }

  /** The resolver is always told every account tried so far. */
  lemma {:induction false} TriedAsAsked(w: World, n: nat)
    ensures Asked(w, After(w, n).tried) && |After(w, n).tried| <= n
    ensures After(w, n).reply.None? ==> |After(w, n).tried| == n
  {
    if n > 0 {
      TriedAsAsked(w, n - 1);
      var p := After(w, n - 1);
      if p.reply.None? && w.resolve(n - 1, p.tried).Found? {
        OneMoreAsked(w, p.tried);
      }
    }
  }

  /** Given a resolver that honours the exclusion list, no account is tried twice. */
  lemma {:induction false} NeverTwice(w: World, tried: seq<int>)
    requires HonoursExclusion(w) && Asked(w, tried)
    ensures NoRepeats(tried)
  {
    if tried != [] {
      var before := tried[..|tried| - 1];
      NeverTwice(w, before);
      assert tried[|before|] !in before;
      forall i, j | 0 <= i < j < |tried| ensures tried[i] != tried[j] {
        assert tried[i] == before[i];
      }
    }
  }

  predicate NoRepeats(xs: seq<int>) { forall i, j :: 0 <= i < j < |xs| ==> xs[i] != xs[j] }

  // ------------------------------------------------------------------- theorems

  /** A response that breaks off while it is written is judged by its status alone. When the
      n-th attempt commits, the request's last word on the account is what a complete response
      of that status would have left, unless there was no status; a broken 2xx or 3xx stream
      counts as a success. */
  lemma BrokenStreamSucceeds(w: World, w': World, n: nat)
    requires var p := After(w, n);
      && p.reply.None? && w.resolve(n, p.tried).Found? && w.at(n).writeFailed
      && Judge(w, w.resolve(n, p.tried).c, w.at(n), p.refreshed).Committed?
    requires w'.resolve == w.resolve && w'.tokens == w.tokens && After(w', n) == After(w, n)
    requires w'.at(n) == w.at(n).(writeFailed := false)
    ensures var p, p', status := After(w, n), After(w, n + 1), Reply(w, n + 1);
      && (200 <= status < 400 ==> p'.reports == p.reports + [Health(w.resolve(n, p.tried).c.id, true)])
      && (p' == After(w', n + 1) <==> status != 0)
  {
    var c, a, p := w.resolve(n, After(w, n).tried).c, w.at(n), After(w, n);
    var b := w'.at(n);
    assert a.First(c) == b.First(c) && a.Second(c) == b.Second(c) && a.Third(c) == b.Third(c);
  }

  /** Past the token gate and with a slot, an account is left exactly when every one of its
      URLs was unreachable or answered 429 or 500 and above in the deciding dispatch, or when
      its 401 could not be refreshed; any other answer of any URL is committed. */
  lemma LeftOnlyIfAllFail(w: World, c: Candidate, a: Attempt, refreshed: bool)
    requires (w.tokens && c.oauth ==> a.ready) && a.slot
    ensures var urls := |UrlList(Some(c.account))|;
      !Judge(w, c, a, refreshed).Committed? <==>
        if a.First(c) == Answer(401) && w.tokens && c.oauth && !refreshed then !a.refreshed || AllFail(a.second, urls)
        else AllFail(a.first, urls)
  {
    FailsOnlyIfAllFail(c.account, a.first);
    FailsOnlyIfAllFail(c.account, a.second);
  }

  /** The answer that decides an attempt: the second one after a refresh. */
  function DecidingAnswer(w: World, c: Candidate, a: Attempt, refreshed: bool): Reached {
    if a.First(c) == Answer(401) && w.tokens && c.oauth && !refreshed then a.Second(c) else a.First(c)
  }

  /** What is committed, and what it says of the account. The status is that of the deciding
      answer, or, when that was a rejected signature, of the rectified retry if it got one. So
      429, or 500 and above, is committed only from that retry. It counts against the account,
      2xx and 3xx count for it, and of the rest only a missing status on a failed write
      counts. */
  lemma CommitMeaning(w: World, c: Candidate, a: Attempt, refreshed: bool)
    requires Judge(w, c, a, refreshed).Committed?
    ensures var r, third, status := DecidingAnswer(w, c, a, refreshed), a.Third(c), Judge(w, c, a, refreshed).status;
      && r.Answer? && r.status < 500 && r.status != 429
      && (Judge(w, c, a, refreshed).kept <==> r == Answer(400) && a.signatureError && third.Unreachable?)
      && status == (if r.status == 400 && a.signatureError && third.Answer? then third.status else r.status)
      && (status >= 500 || status == 429 ==> r == Answer(400) && a.signatureError && third == Answer(status))
      && Reports(w, c, a, refreshed) ==
           if 200 <= status < 400 then [Health(c.id, true)]
           else if status >= 500 || status == 429 || (status == 0 && a.writeFailed) then [Health(c.id, false)]
           else []
  {
  }

  /** What an attempt that commits nothing says of the account, and what it is remembered by:
      nothing if its token, its slot or its refresh stopped it, and one failure if its URLs
      did. */
  lemma LeaveMeaning(w: World, c: Candidate, a: Attempt, refreshed: bool)
    requires !Judge(w, c, a, refreshed).Committed?
    ensures var v, r := Judge(w, c, a, refreshed), DecidingAnswer(w, c, a, refreshed);
      if w.tokens && c.oauth && !a.ready then v == Failed(0) && Reports(w, c, a, refreshed) == []
      else if !a.slot then v == Busy && Reports(w, c, a, refreshed) == []
      else if a.First(c) == Answer(401) && w.tokens && c.oauth && !refreshed && !a.refreshed
      then v == Failed(401) && Reports(w, c, a, refreshed) == []
      else Reports(w, c, a, refreshed) == [Health(c.id, false)] && v == Failed(if r.Answer? then r.status else 0)
  {
  }

  /** The body shown with a reply: that of the last dispatch, or the rejected one before it
      when the rectified retry got no answer. */
  lemma ShownMeaning(w: World, p: Progress, n: nat, c: Candidate)
    requires p.reply.None? && w.resolve(n, p.tried) == Found(c) && Judge(w, c, w.at(n), p.refreshed).Committed?
    ensures var a, p' := w.at(n), Advance(w, p, n);
      p'.shown == Some(p'.spent.dispatches -
        if DecidingAnswer(w, c, a, p.refreshed) == Answer(400) && a.signatureError && a.Third(c).Unreachable?
        then 2 else 1)
  {
    CommitMeaning(w, c, w.at(n), p.refreshed);
  }

  /** No account has more than `urls` URLs. */
  ghost predicate UrlsWithin(w: World, urls: nat) {
    forall n, tried :: w.resolve(n, tried).Found? ==> |UrlList(Some(w.resolve(n, tried).c.account))| <= urls
  }

  /** At most two dispatches more than attempts, one for the refresh and one for the
      rectifier; and no dispatch asks more than each URL of its account. */
  lemma {:induction false} DispatchBound(w: World, n: nat, urls: nat)
    requires UrlsWithin(w, urls)
    ensures var p := After(w, n);
      && p.spent.dispatches <= n + (if p.refreshed then 1 else 0) + (if p.reply.Some? then 1 else 0)
      && p.spent.requests <= p.spent.dispatches * urls <= (n + 2) * urls
  {
    FewDispatches(w, n);
    FewRequests(w, n, urls);
    Monotone(After(w, n).spent.dispatches, n + 2, urls);
  }

  /** What holds at the start and is kept by each attempt holds after any number of them. */
  lemma {:induction false} EveryAttempt(w: World, n: nat, inv: (Progress, nat) -> bool)
    requires inv(START, 0) && forall p: Progress, i: nat :: inv(p, i) ==> inv(Advance(w, p, i), i + 1)
    ensures inv(After(w, n), n)
  {
    if n > 0 {
      EveryAttempt(w, n - 1, inv);
    }
  }

  lemma FewDispatches(w: World, n: nat)
    ensures AtMost(After(w, n), n)
  {
    forall p: Progress, i: nat | AtMost(p, i) ensures AtMost(Advance(w, p, i), i + 1) { OneMoreAtMost(w, p, i); }
    EveryAttempt(w, n, AtMost);
  }

  predicate AtMost(p: Progress, n: nat) {
    p.spent.dispatches <= n + (if p.refreshed then 1 else 0) + (if p.reply.Some? then 1 else 0)
  }

  lemma OneMoreAtMost(w: World, p: Progress, n: nat)
    requires AtMost(p, n)
    ensures AtMost(Advance(w, p, n), n + 1)
  {
  }

  predicate Few(e: Effort, urls: nat) { e.requests <= e.dispatches * urls }

  lemma FewRequests(w: World, n: nat, urls: nat)
    requires UrlsWithin(w, urls)
    ensures Few(After(w, n).spent, urls)
  {
    var inv := (p: Progress, i: nat) => Few(p.spent, urls);
    forall p: Progress, i: nat | inv(p, i) ensures inv(Advance(w, p, i), i + 1) { OneMoreIsFew(w, p, i, urls); }
    EveryAttempt(w, n, inv);
  }

  lemma OneMoreIsFew(w: World, p: Progress, n: nat, urls: nat)
    requires UrlsWithin(w, urls) && Few(p.spent, urls)
    ensures Few(Advance(w, p, n).spent, urls)
  {
    if p.reply.None? && w.resolve(n, p.tried).Found? {
      var c, a := w.resolve(n, p.tried).c, w.at(n);
      CostIsFew(w, c, a, p.refreshed, urls);
      Product(p.spent, Cost(w, c, a, p.refreshed), urls);
    }
  }

  lemma Monotone(x: nat, y: nat, urls: nat)
    requires x <= y
    ensures x * urls <= y * urls
  {
  }

  lemma Product(e: Effort, f: Effort, urls: nat)
    requires Few(e, urls) && Few(f, urls)
    ensures Few(e.Plus(f), urls)
  {
  }

  lemma CostIsFew(w: World, c: Candidate, a: Attempt, refreshed: bool, urls: nat)
    requires |UrlList(Some(c.account))| <= urls
    ensures Few(Cost(w, c, a, refreshed), urls)
  {
  }

  /** Every URL is down but the last one. */
  function LastOf(a: Account, answer: Reached): nat -> Reached {
    i => if i + 1 == |UrlList(Some(a))| then answer else Unreachable
  }

  lemma LastDecides(a: Account, answer: Reached)
    ensures Outcome(a, LastOf(a, answer)) == answer && Requests(a, LastOf(a, answer)) == |UrlList(Some(a))|
  {
    UrlListIsNonempty(Some(a));
    DispatchIsOutcome(a, LastOf(a, answer), |UrlList(Some(a))| - 1);
  }

  /** Accounts that are down until the last, whose token has just expired and whose
      conversation carries a stale signature; each answers at its last URL only. */
  function WorstCase(max: nat, a: Account): World {
    World((n, _) => Found(Candidate(n, true, a)),
          n => Attempt(true, true, LastOf(a, if n + 1 < max then Unreachable else Answer(401)),
                       true, LastOf(a, Answer(400)), true, LastOf(a, Answer(200)), false),
          true)
  }

  /** Both bounds are reached for every number of attempts and every list of URLs. */
  lemma BoundIsReached(max: nat, a: Account)
    requires max >= 1
    ensures var p, urls := After(WorstCase(max, a), max), |UrlList(Some(a))|;
      p.spent == Effort(max + 2, (max + 2) * urls) && Reply(WorstCase(max, a), max) == 200
  {
    DownUntil(max, a, max - 1);
    LastDecides(a, Answer(401));
    LastDecides(a, Answer(400));
    LastDecides(a, Answer(200));
  }

  ghost predicate Down(p: Progress, n: nat, urls: nat) {
    p.spent == Effort(n, n * urls) && !p.refreshed && p.reply.None?
  }

  lemma {:induction false} DownUntil(max: nat, a: Account, n: nat)
    requires n < max
    ensures Down(After(WorstCase(max, a), n), n, |UrlList(Some(a))|)
  {
    if n > 0 {
      DownUntil(max, a, n - 1);
      OneMoreDown(max, a, After(WorstCase(max, a), n - 1), n - 1);
    }
  }

  lemma OneMoreDown(max: nat, a: Account, p: Progress, n: nat)
    requires n + 1 < max && Down(p, n, |UrlList(Some(a))|)
    ensures Down(Advance(WorstCase(max, a), p, n), n + 1, |UrlList(Some(a))|)
  {
    LastDecides(a, Unreachable);
  }

  /** How the first n attempts ended, as far as there were any. */
  function Verdicts(w: World, n: nat): seq<Verdict> {
    if n == 0 then []
    else
      var p := After(w, n - 1);
      match w.resolve(n - 1, p.tried)
      case Found(c) =>
        if p.reply.Some? then Verdicts(w, n - 1)
        else Verdicts(w, n - 1) + [Judge(w, c, w.at(n - 1), p.refreshed)]
      case _ => Verdicts(w, n - 1)
  }

  /** The last bad status: that of the last attempt not skipped for a full account, 0 if
      its transport failed. */
  function LastBad(vs: seq<Verdict>): int {
    if vs == [] then 0 else Carry(vs[|vs| - 1], LastBad(vs[..|vs| - 1]))
  }

  lemma LastBadSnoc(vs: seq<Verdict>, v: Verdict)
    ensures LastBad(vs + [v]) == Carry(v, LastBad(vs))
  {
    assert (vs + [v])[..|vs|] == vs;
  }

  /** The last attempt not skipped for a full account ended with 429. */
  ghost predicate RateLimitedLast(vs: seq<Verdict>) {
    exists i :: 0 <= i < |vs| && vs[i] == Failed(429) && forall j :: i < j < |vs| ==> !vs[j].Failed?
  }

  lemma {:induction false} ExhaustedMeaning(vs: seq<Verdict>)
    requires forall i :: 0 <= i < |vs| ==> !vs[i].Committed?
    ensures Exhausted(LastBad(vs)) == if RateLimitedLast(vs) then 429 else 502
  {
    if vs != [] {
      var front, v := vs[..|vs| - 1], vs[|vs| - 1];
      ExhaustedMeaning(front);
      if v.Failed? {
        assert vs[|vs| - 1] == v;
      } else {
        LastStays(front, v);
        assert front + [v] == vs;
      }
    }
  }

  lemma LastStays(vs: seq<Verdict>, v: Verdict)
    requires !v.Failed?
    ensures RateLimitedLast(vs + [v]) <==> RateLimitedLast(vs)
  {
    if i :| 0 <= i < |vs| && vs[i] == Failed(429) && forall j :: i < j < |vs| ==> !vs[j].Failed? {
      assert (vs + [v])[i] == Failed(429);
    }
    if i :| 0 <= i <= |vs| && (vs + [v])[i] == Failed(429) && forall j :: i < j <= |vs| ==> !(vs + [v])[j].Failed? {
      assert vs[i] == Failed(429);
      forall j | i < j < |vs| ensures !vs[j].Failed? { assert vs[j] == (vs + [v])[j]; }
    }
  }

  /** The resolver's part in a reply that no upstream gave. */
  ghost predicate ResolverAnswered(w: World, n: nat, vs: seq<Verdict>, tried: seq<int>, status: int) {
    && |vs| < n
    && match w.resolve(|vs|, tried)
       case ResolverError => status == 500
       case NoUpstream => status == if vs == [] then 503 else if RateLimitedLast(vs) then 429 else 502
       case Found(_) => false
  }

  ghost predicate AnsweredBy(w: World, n: nat, vs: seq<Verdict>, tried: seq<int>, status: int) {
    if vs != [] && vs[|vs| - 1].Committed? then status == vs[|vs| - 1].status
    else ResolverAnswered(w, n, vs, tried, status)
  }

  ghost predicate Means(w: World, n: nat, vs: seq<Verdict>, p: Progress) {
    && |vs| <= n && (forall i :: 0 <= i < |vs| - 1 ==> !vs[i].Committed?)
    && (p.reply.None? ==> |vs| == n && (vs != [] ==> !vs[n - 1].Committed?))
    && (p.reply.Some? ==> AnsweredBy(w, n, vs, p.tried, p.reply.value))
    && (p.reply.None? ==> forall i :: 0 <= i < |vs| ==> !vs[i].Committed?)
    && p.bad == LastBad(vs)
  }

  lemma OneMoreVerdict(w: World, n: nat, vs: seq<Verdict>, p: Progress, c: Candidate)
    requires Means(w, n, vs, p) && p.reply.None? && w.resolve(n, p.tried) == Found(c)
    ensures Means(w, n + 1, vs + [Judge(w, c, w.at(n), p.refreshed)], Advance(w, p, n))
  {
    var v := Judge(w, c, w.at(n), p.refreshed);
    LastBadSnoc(vs, v);
    forall i | 0 <= i < |vs| ensures !(vs + [v])[i].Committed? {
      assert (vs + [v])[i] == vs[i];
    }
  }

  lemma NoMoreVerdicts(w: World, n: nat, vs: seq<Verdict>, p: Progress)
    requires Means(w, n, vs, p) && (p.reply.Some? || !w.resolve(n, p.tried).Found?)
    ensures Means(w, n + 1, vs, Advance(w, p, n))
  {
    if p.reply.None? {
      ExhaustedMeaning(vs);
      assert ResolverAnswered(w, n + 1, vs, p.tried, Advance(w, p, n).reply.value);
    }
  }

  /** The client gets the first committable response and nothing later; failing that, what
      the resolver's refusal calls for. Until then every attempt has failed. */
  lemma {:induction false} ReplyMeaning(w: World, n: nat)
    ensures Means(w, n, Verdicts(w, n), After(w, n))
  {
    if n > 0 {
      ReplyMeaning(w, n - 1);
      var vs, p := Verdicts(w, n - 1), After(w, n - 1);
      if p.reply.None? && w.resolve(n - 1, p.tried).Found? {
        OneMoreVerdict(w, n - 1, vs, p, w.resolve(n - 1, p.tried).c);
      } else {
        NoMoreVerdicts(w, n - 1, vs, p);
      }
    }
  }

  /** When all attempts are spent on failures, the client gets 429 if the last one not skipped
      for a full account ended so, and 502 otherwise. */
  lemma GivesUp(w: World, max: nat)
    requires After(w, max).reply.None?
    ensures Reply(w, max) == if RateLimitedLast(Verdicts(w, max)) then 429 else 502
  {
    ReplyMeaning(w, max);
    ExhaustedMeaning(Verdicts(w, max));
  }
}
