/** The checkout page: on mount it reads the session, asks the order service to
    create an order, and then polls the order's status every three seconds
    until a payment link appears. Each firing of the interval is one atomic
    step of the model (`Tick`); the requests' answers are parameters. */
module Checkout {
  import opened Js
  import opened Http
  import opened Session

  datatype Status = CreatingOrder | PollingPayment | Redirecting | Error

  /** The polling interval: not yet started, running for an order, or cleared. */
  datatype Timer = NoTimer | Running(orderId: string) | Cleared

  /** The page's state together with the effects it has had so far. */
  datatype Flow = Flow(
    status: Status,
    statusMessage: string,
    errorMessage: Option<string>,
    token: Option<string>,
    attempts: nat,
    timer: Timer,
    /** The last value assigned to `window.location.href`. */
    navigation: Option<string>,
    /** An error rethrown out of the interval callback, which no `catch` of the page handles. */
    escaped: Option<Failure>,
    orderRequests: nat,
    pollRequests: nat)

  /** The page's limit on polling attempts. */
  const MaxAttempts: nat := 20

  const TimeoutMessage: string := "Payment timeout. Please try again."
  const WaitingMessage: string := "Waiting for payment link..."

  /** The state before the effect runs. */
  const Initial: Flow :=
    Flow(CreatingOrder, "Please wait while we verify your information...", None, None,
         0, NoTimer, None, None, 0, 0)

  /** The message of the auth step's `catch`: `error.message || "Authentication failed."`. */
  function AuthFailureMessage(g: Gate): string
    requires !g.Token?
  {
    match g
    case LoggedOut => "You must be logged in to check out."
    case Unreadable(m) => if m != "" then m else "Authentication failed."
  }

  /** The mount effect up to the order-creation request: without a readable
      session the flow fails and sends the browser to the login page. */
  function Begin(store: Store): (f: Flow)
    ensures !store.auth.Stored? ==>
              f.status == Error && f.navigation == Some("/login") &&
              f.orderRequests == 0 && f.errorMessage.Some? && f.timer == NoTimer
    ensures store.auth.Stored? ==>
              f.status == CreatingOrder && f.orderRequests == 1 &&
              f.token == store.auth.data.token && f.navigation.None? && f.timer == NoTimer &&
              f.errorMessage.None?
    ensures f.pollRequests == 0 && f.attempts == 0
  {
    match ReadSession(store.auth)
    case Token(t) =>
      Initial.(statusMessage := "Please wait while we prepare your order...",
               token := t, orderRequests := 1)
    case g =>
      Initial.(status := Error, errorMessage := Some(AuthFailureMessage(g)),
               navigation := Some("/login"))
  }

  /** The answer to the order-creation request: a failure, or a body whose
      `data.order._id` is given when `data`, `order` and `_id` are all present. */
  datatype OrderResponse = OrderFailed(failure: Failure) | OrderReceived(orderId: Option<string>)

  /** The message of the outer `catch`. */
  function FailureMessage(e: Failure): (m: string)
    ensures m != ""
    ensures e.Rejected? ==> m == ServerMessage(e.status, e.message)
    ensures !e.Rejected? && e.message != "" ==> m == e.message
  {
    DescribeWithoutNetwork(e, "An unknown error occurred.")
  }

  /** The one order-creation request is outstanding, whatever became of the timer. */
  predicate OrderPending(f: Flow) {
    && f.status == CreatingOrder && f.orderRequests == 1
    && f.pollRequests == 0 && f.attempts == 0 && f.errorMessage.None?
  }

  /** The page's state right after the one order-creation request was sent. */
  predicate AwaitingOrder(f: Flow) {
    OrderPending(f) && f.timer == NoTimer
  }

  /** Handles the order-creation answer: a truthy `_id` starts polling with no
      attempts made; anything else fails the flow without starting the timer. */
  function OnOrderCreated(f: Flow, r: OrderResponse): (g: Flow)
    requires AwaitingOrder(f)
    ensures g.status == PollingPayment <==> r.OrderReceived? && Truthy(r.orderId)
    ensures g.status == PollingPayment ==>
              g.attempts == 0 && g.timer == Running(r.orderId.value) && g.errorMessage.None?
    ensures g.status != PollingPayment ==>
              g.status == Error && g.timer == NoTimer && g.errorMessage.Some?
    ensures r.OrderReceived? && !Truthy(r.orderId) ==>
              g.errorMessage == Some("Invalid response received from createorder API.")
    ensures g.pollRequests == 0 && g.orderRequests == 1 && g.navigation == f.navigation
  {
    var failure :=
      match r
      case OrderFailed(e) => Some(e)
      case OrderReceived(id) =>
        if Truthy(id) then None
        else Some(Thrown("Invalid response received from createorder API."));
    match failure
    case Some(e) => f.(status := Error, errorMessage := Some(FailureMessage(e)))
    case None =>
      f.(status := PollingPayment, statusMessage := "Contacting payment provider...",
         timer := Running(r.orderId.value))
  }

  /** The answer to one status request. */
  datatype Poll =
    | PollFailed(failure: Failure)
      /** `pollResponse.data` is falsy. */
    | NoData
      /** `data` has no `checkoutUrl` property. */
    | UrlAbsent
    | UrlNull
    | Url(value: string)

  /** An answer that neither redirects nor is `null`: only these reach the timeout test. */
  predicate Silent(p: Poll) {
    p.NoData? || p.UrlAbsent? || (p.Url? && p.value == "")
  }

  /** One firing of the interval (as written). A cleared or unstarted timer
      never fires. Otherwise the attempt is counted before the request; a
      truthy link redirects; an explicit `null` only changes the message; a
      silent answer after more than `MaxAttempts` attempts clears the timer and
      throws. Errors thrown here are rethrown out of the callback, so they
      escape the page instead of reaching its outer `catch`. */
  function Tick(f: Flow, p: Poll): (g: Flow)
    ensures !f.timer.Running? ==> g == f
    ensures f.timer.Running? ==>
              g.attempts == f.attempts + 1 && g.pollRequests == f.pollRequests + 1 &&
              g.orderRequests == f.orderRequests && g.errorMessage == f.errorMessage
    ensures g.status == Redirecting <==>
              f.status == Redirecting || (f.timer.Running? && p.Url? && p.value != "")
    ensures g.status != f.status ==> g.status == Redirecting
    ensures f.timer.Running? && p.Url? && p.value != "" ==>
              g.navigation == Some(p.value) && g.timer == Cleared
    ensures f.timer.Running? && p.UrlNull? ==>
              g == f.(attempts := f.attempts + 1, pollRequests := f.pollRequests + 1,
                      statusMessage := WaitingMessage)
    ensures f.timer.Running? && Silent(p) ==>
              (g.timer == Cleared <==> f.attempts + 1 > MaxAttempts) &&
              (g.timer == Cleared ==> g.escaped == Some(Thrown(TimeoutMessage)))
    ensures f.timer.Running? && p.PollFailed? ==>
              g.timer == Cleared && g.escaped == Some(p.failure) && g.status == f.status
  {
    if !f.timer.Running? then f
    else
      var f1 := f.(attempts := f.attempts + 1, pollRequests := f.pollRequests + 1);
      if p.PollFailed? then f1.(timer := Cleared, escaped := Some(p.failure))
      else if p.Url? && p.value != "" then
        f1.(timer := Cleared, status := Redirecting,
            statusMessage := "Redirecting to secure payment...", navigation := Some(p.value))
      else if p.UrlNull? then f1.(statusMessage := WaitingMessage)
      else if f1.attempts > MaxAttempts then
        f1.(timer := Cleared, escaped := Some(Thrown(TimeoutMessage)))
      else f1
  }

  /** A run of interval firings, one answer each. */
  function Run(f: Flow, polls: seq<Poll>): Flow
    decreases |polls|
  {
    if polls == [] then f else Run(Tick(f, polls[0]), polls[1..])
  }

  /** The effect's cleanup on unmount: an active timer is cleared. */
  function Unmount(f: Flow): (g: Flow)
    ensures !g.timer.Running?
    ensures g.status == f.status && g.pollRequests == f.pollRequests
  {
    if f.timer.Running? then f.(timer := Cleared) else f
  }

  /** Leaving the page while the order is being created clears nothing,
      because the interval does not exist yet; when the order arrives the
      interval starts anyway and the first firing sends a status request. */
  lemma LateOrderPollsAfterUnmount(store: Store, id: string, p: Poll)
    requires store.auth.Stored? && id != ""
    ensures Unmount(Begin(store)) == Begin(store)
    ensures var f := OnOrderCreated(Unmount(Begin(store)), OrderReceived(Some(id)));
            && f.status == PollingPayment && f.timer == Running(id)
            && Tick(f, p).pollRequests == 1
  {
  }

  /** The cleanup as intended: it also cancels an interval that has not started yet. */
  function CorrectedUnmount(f: Flow): (g: Flow)
    ensures g.timer == Cleared
    ensures g.status == f.status && g.pollRequests == f.pollRequests && g.navigation == f.navigation
  {
    f.(timer := Cleared)
  }

  /** The order-creation answer as intended: once the page has been left it
      starts nothing; otherwise it is handled as the page does. */
  function CorrectedOnOrderCreated(f: Flow, r: OrderResponse): (g: Flow)
    requires OrderPending(f) && (f.timer == NoTimer || f.timer == Cleared)
    ensures f.timer == Cleared ==> g == f
    ensures f.timer == NoTimer ==> g == OnOrderCreated(f, r)
  {
    if f.timer == Cleared then f else OnOrderCreated(f, r)
  }

  /** With the intended cleanup, leaving the page before the order arrives
      means no status request is ever made, whatever the answers. */
  lemma CorrectedUnmountStopsPolling(store: Store, r: OrderResponse, polls: seq<Poll>)
    requires store.auth.Stored?
    ensures var f := CorrectedOnOrderCreated(CorrectedUnmount(Begin(store)), r);
            && !f.timer.Running? && f.pollRequests == 0
            && Run(f, polls) == f && CorrectedRun(f, polls) == f
  {
    var f := CorrectedOnOrderCreated(CorrectedUnmount(Begin(store)), r);
    assert Unmount(f) == f;
    NoTickAfterUnmount(f, polls);
    CorrectedRunStopped(f, polls);
  }

  /** Polling in progress: the only state in which the timer runs. */
  predicate Polling(f: Flow) {
    f.status == PollingPayment && f.timer.Running?
  }

  /** After unmounting, no firing issues a request or changes anything. */
  lemma {:induction false} NoTickAfterUnmount(f: Flow, polls: seq<Poll>)
    ensures Run(Unmount(f), polls) == Unmount(f)
    decreases |polls|
  {
    if polls != [] {
      NoTickAfterUnmount(f, polls[1..]);
    }
  }

  /** Explicit `null` links never time out: however many arrive, the timer
      keeps running and only the attempt counter grows. */
  lemma {:induction false} NullLinksNeverTimeOut(f: Flow, polls: seq<Poll>)
    requires Polling(f)
    requires forall i :: 0 <= i < |polls| ==> polls[i].UrlNull?
    ensures Polling(Run(f, polls))
    ensures Run(f, polls).attempts == f.attempts + |polls|
    ensures Run(f, polls).pollRequests == f.pollRequests + |polls|
    ensures Run(f, polls).timer == f.timer
    decreases |polls|
  {
    if polls != [] {
      NullLinksNeverTimeOut(Tick(f, polls[0]), polls[1..]);
    }
  }

  /** Silent answers keep polling while the attempt count stays within the limit. */
  lemma {:induction false} SilentWithinLimitKeepsPolling(f: Flow, polls: seq<Poll>)
    requires Polling(f)
    requires f.attempts + |polls| <= MaxAttempts
    requires forall i :: 0 <= i < |polls| ==> Silent(polls[i])
    ensures Run(f, polls) == f.(attempts := f.attempts + |polls|,
                                pollRequests := f.pollRequests + |polls|)
    decreases |polls|
  {
    if polls != [] {
      SilentWithinLimitKeepsPolling(Tick(f, polls[0]), polls[1..]);
    }
  }

  /** A run that is one run followed by another. */
  lemma {:induction false} RunAppend(f: Flow, a: seq<Poll>, b: seq<Poll>)
    ensures Run(f, a + b) == Run(Run(f, a), b)
    decreases |a|
  {
    if a == [] {
      assert a + b == b;
    } else {
      assert (a + b)[1..] == a[1..] + b;
      RunAppend(Tick(f, a[0]), a[1..], b);
    }
  }

  /** From a fresh start, twenty-one silent answers time out on the
      twenty-first firing: the timer is cleared and the timeout escapes, but the
      status stays `PollingPayment` and no error message is set. */
  lemma TimeoutOnTwentyFirstSilentAnswer(f: Flow, polls: seq<Poll>)
    requires Polling(f) && f.attempts == 0 && f.errorMessage.None?
    requires |polls| == MaxAttempts + 1
    requires forall i :: 0 <= i < |polls| ==> Silent(polls[i])
    ensures Polling(Run(f, polls[..MaxAttempts]))
    ensures var g := Run(f, polls);
            && g.timer == Cleared && g.escaped == Some(Thrown(TimeoutMessage))
            && g.status == PollingPayment && g.errorMessage.None?
            && g.pollRequests == f.pollRequests + MaxAttempts + 1
  {
    var head := polls[..MaxAttempts];
    SilentWithinLimitKeepsPolling(f, head);
    RunAppend(f, head, [polls[MaxAttempts]]);
    assert head + [polls[MaxAttempts]] == polls;
  }

  /** A failed status request stops polling for good, yet the page keeps
      showing `PollingPayment` with no error message. */
  lemma PollFailureLeavesStatus(f: Flow, e: Failure, more: seq<Poll>)
    requires Polling(f) && f.errorMessage.None?
    ensures var g := Run(f, [PollFailed(e)] + more);
            && g.status == PollingPayment && g.errorMessage.None?
            && g.escaped == Some(e) && g.pollRequests == f.pollRequests + 1
  {
    var g := Tick(f, PollFailed(e));
    assert ([PollFailed(e)] + more)[1..] == more;
    assert g == Unmount(g);
    NoTickAfterUnmount(g, more);
  }

  /** A complete successful checkout: the order is created, the first poll
      answers `null`, the second a link: two requests, the timer cleared, and
      the browser sent to the link. */
  lemma NullThenLinkRedirects(store: Store, id: string, link: string)
    requires store.auth.Stored? && id != "" && link != ""
    ensures var g := Run(OnOrderCreated(Begin(store), OrderReceived(Some(id))), [UrlNull, Url(link)]);
            && g.status == Redirecting && g.navigation == Some(link)
            && g.pollRequests == 2 && g.timer == Cleared
  {
    var f := OnOrderCreated(Begin(store), OrderReceived(Some(id)));
    var f1 := Tick(f, UrlNull);
    assert [UrlNull, Url(link)][1..] == [Url(link)];
    assert Run(f, [UrlNull, Url(link)]) == Run(f1, [Url(link)]);
    assert Run(f1, [Url(link)]) == Run(Tick(f1, Url(link)), []);
  }

  // ----- The evidently intended polling -----

  /** One firing of the interval as its comments describe it: a failed request
      and the timeout end in `Error` with a message, as the outer `catch` would
      have done, and the timeout test comes before the `null` test so that the
      attempt limit bounds every kind of answer. */
  function CorrectedTick(f: Flow, p: Poll): (g: Flow)
    ensures !f.timer.Running? ==> g == f
    ensures f.timer.Running? ==> g.attempts == f.attempts + 1 && g.pollRequests == f.pollRequests + 1
    ensures f.timer.Running? && p.PollFailed? ==>
              g.status == Error && g.timer == Cleared && g.errorMessage == Some(FailureMessage(p.failure))
    ensures f.timer.Running? && !(p.Url? && p.value != "") && f.attempts + 1 > MaxAttempts ==>
              g.status == Error && g.timer == Cleared
    ensures (f.timer.Running? && !p.PollFailed? && !(p.Url? && p.value != "") &&
             f.attempts + 1 <= MaxAttempts) ==> g.timer == f.timer && g.status == f.status
  {
    if !f.timer.Running? then f
    else
      var f1 := f.(attempts := f.attempts + 1, pollRequests := f.pollRequests + 1);
      if p.PollFailed? then
        f1.(timer := Cleared, status := Error, errorMessage := Some(FailureMessage(p.failure)))
      else if p.Url? && p.value != "" then
        f1.(timer := Cleared, status := Redirecting,
            statusMessage := "Redirecting to secure payment...", navigation := Some(p.value))
      else if f1.attempts > MaxAttempts then
        f1.(timer := Cleared, status := Error, errorMessage := Some(TimeoutMessage))
      else if p.UrlNull? then f1.(statusMessage := WaitingMessage)
      else f1
  }

  function CorrectedRun(f: Flow, polls: seq<Poll>): Flow
    decreases |polls|
  {
    if polls == [] then f else CorrectedRun(CorrectedTick(f, polls[0]), polls[1..])
  }

  lemma {:induction false} CorrectedRunStopped(f: Flow, polls: seq<Poll>)
    requires !f.timer.Running?
    ensures CorrectedRun(f, polls) == f
    decreases |polls|
  {
    if polls != [] {
      CorrectedRunStopped(f, polls[1..]);
    }
  }

  /** With the intended routing, polling that never sees a link ends in
      `Error` with the timer cleared once the attempts exceed the limit,
      whatever the answers were (`null` included). */
  lemma {:induction false} CorrectedPollingIsBounded(f: Flow, polls: seq<Poll>)
    requires Polling(f) && f.attempts <= MaxAttempts
    requires f.attempts + |polls| > MaxAttempts
    requires forall i :: 0 <= i < |polls| ==> !(polls[i].Url? && polls[i].value != "")
    ensures CorrectedRun(f, polls).status == Error
    ensures !CorrectedRun(f, polls).timer.Running?
    decreases |polls|
  {
    var g := CorrectedTick(f, polls[0]);
    if g.timer.Running? {
      CorrectedPollingIsBounded(g, polls[1..]);
    } else {
      CorrectedRunStopped(g, polls[1..]);
    }
  }

  /** With the intended routing, a failed status request shows `Error` with the failure's message. */
  lemma CorrectedPollFailureIsError(f: Flow, e: Failure, more: seq<Poll>)
    requires Polling(f)
    ensures var g := CorrectedRun(f, [PollFailed(e)] + more);
            g.status == Error && g.errorMessage == Some(FailureMessage(e)) && !g.timer.Running?
  {
    var g := CorrectedTick(f, PollFailed(e));
    assert ([PollFailed(e)] + more)[1..] == more;
    CorrectedRunStopped(g, more);
  }

  // ----- Progress steps -----

  /** The statuses the progress bar shows, in order. */
  const StepsConfig: seq<Status> := [CreatingOrder, PollingPayment, Redirecting]

  /** `Array.prototype.findIndex` with `===`: the first position of `x`, or -1. */
  function FindIndex(steps: seq<Status>, x: Status): (r: int)
    ensures -1 <= r < |steps|
    ensures r == -1 <==> x !in steps
    ensures r >= 0 ==> steps[r] == x && forall i :: 0 <= i < r ==> steps[i] != x
  {
    if steps == [] then -1
    else if steps[0] == x then 0
    else
      var k := FindIndex(steps[1..], x);
      if k == -1 then -1 else k + 1
  }

  /** The active step of `CheckoutSteps`. */
  function ActiveIndex(s: Status): (r: int)
    ensures r == -1 <==> s !in StepsConfig
    ensures r >= 0 ==> r < |StepsConfig| && StepsConfig[r] == s
  {
    FindIndex(StepsConfig, s)
  }

  /** Step `index` is drawn as done (with a check mark) when it lies before the active one. */
  predicate StepDone(index: int, s: Status) {
    index < ActiveIndex(s)
  }

  /** Each in-progress status is its own step, and `Error` is no step, so no
      step of the bar is marked done or active. */
  lemma ActiveStepFollowsStatus()
    ensures ActiveIndex(CreatingOrder) == 0
    ensures ActiveIndex(PollingPayment) == 1
    ensures ActiveIndex(Redirecting) == 2
    ensures ActiveIndex(Error) == -1
    ensures forall i :: 0 <= i < |StepsConfig| ==> !StepDone(i, Error)
  {
    assert StepsConfig[0] == CreatingOrder;
    assert StepsConfig[1] == PollingPayment;
    assert StepsConfig[2] == Redirecting;
  }
}
