/** The response interceptor of the shared HTTP client (src/Api/axiosInstance.js).
    A successful response passes through unchanged. An error whose response
    status is 401, on a request not yet marked as retried, marks the request,
    posts once to `/refresh-token` through the bare client (so a failing
    refresh is never intercepted) and, if that succeeds, replays the same
    request through the intercepted client. Everything else, and a failed
    refresh, rejects the original error.

    The network is not modelled: the outcome of the first attempt, of the
    refresh and of the replay are inputs. Each request carries its own
    `retried` marker and nothing is shared between requests, so concurrent
    401s each start their own refresh. */
module SessionClient {
  import opened Common

  const Unauthorized: int := 401

  datatype Response = Response(status: int, data: string)

  /** An axios error: `response` is absent when no answer arrived. */
  datatype HttpError = HttpError(response: Option<Response>, message: string)

  /** How a request promise settles. */
  datatype Outcome = Fulfilled(response: Response) | Rejected(error: HttpError)

  /** `error.response?.status === 401` */
  predicate IsUnauthorized(e: HttpError) {
    e.response.Some? && e.response.value.status == Unauthorized
  }

  /** The request config that axios hands back as `error.config`; `retried`
      is its `_retry` marker, which the interceptor sets in place. */
  class RequestConfig {
    const verb: string
    const url: string
    const body: string
    var retried: bool

    constructor (verb: string, url: string, body: string)
      ensures this.verb == verb && this.url == url && this.body == body
      ensures !retried
    {
      this.verb := verb;
      this.url := url;
      this.body := body;
      retried := false;
    }
  }

  /** What one request's trip through the interceptor amounts to: how its
      promise settles, how many refresh posts and replays it issued, and the
      marker it ends with. */
  datatype Handled = Handled(result: Outcome, refreshCalls: nat, replays: nat, retried: bool)

  /** Reference definition of the interceptor, stated by cases on the inputs
      rather than following the handler's control flow. A replayed request
      settles as its replay settles: a replay that fails, even with 401, meets
      the marker already set and is rejected as it is. */
  function Expected(retried: bool, first: Outcome, refresh: Outcome, replay: Outcome): (h: Handled)
    ensures h.refreshCalls <= 1 && h.replays <= h.refreshCalls
    ensures h.refreshCalls == 1 <==> !retried && first.Rejected? && IsUnauthorized(first.error)
    ensures h.replays == 1 <==> h.refreshCalls == 1 && refresh.Fulfilled?
    ensures h.retried <==> retried || h.refreshCalls == 1
    ensures h.result == (if h.replays == 1 then replay else first)
  {
    if first.Fulfilled? || !IsUnauthorized(first.error) || retried then
      Handled(first, 0, 0, retried)
    else if refresh.Rejected? then
      Handled(first, 1, 0, true)
    else
      Handled(replay, 1, 1, true)
  }

  /** The whole interceptor: the success handler `res => res`, else the
      error handler. Only the given request's marker may change. */
  method Send(req: RequestConfig, first: Outcome, refresh: Outcome, replay: Outcome)
    returns (result: Outcome, refreshCalls: nat, replays: nat)
    modifies req
    ensures Handled(result, refreshCalls, replays, req.retried)
            == Expected(old(req.retried), first, refresh, replay)
  {
    match first
    case Fulfilled(_) =>
      result, refreshCalls, replays := first, 0, 0;
    case Rejected(e) =>
      result, refreshCalls, replays := OnRejected(req, e, refresh, replay);
  }

  /** The error handler. A replay goes through the interceptor again, so a
      failing replay re-enters this handler with the marker already set. */
  method OnRejected(req: RequestConfig, error: HttpError, refresh: Outcome, replay: Outcome)
    returns (result: Outcome, refreshCalls: nat, replays: nat)
    modifies req
    ensures Handled(result, refreshCalls, replays, req.retried)
            == Expected(old(req.retried), Rejected(error), refresh, replay)
    decreases if req.retried then 0 else 1
  {
    refreshCalls, replays := 0, 0;
    if IsUnauthorized(error) && !req.retried {
      req.retried := true;
      // the refresh post goes through the bare client: its failure is caught
      // below and is never seen by this interceptor
      refreshCalls := 1;
      if refresh.Fulfilled? {
        replays := 1;
        match replay {
          case Fulfilled(_) =>
            result := replay;
          case Rejected(again) =>
            var moreRefreshes, moreReplays;
            result, moreRefreshes, moreReplays := OnRejected(req, again, refresh, replay);
            refreshCalls, replays := refreshCalls + moreRefreshes, replays + moreReplays;
        }
        return;
      }
      // the catch block only logs, so control falls through to the rejection
    }
    result := Rejected(error);
  }

  /** A successful response is returned unchanged and issues no refresh. */
  lemma SuccessPassesThrough(retried: bool, res: Response, refresh: Outcome, replay: Outcome)
    ensures Expected(retried, Fulfilled(res), refresh, replay) == Handled(Fulfilled(res), 0, 0, retried)
  {
  }

  /** An error without a response, or with any status but 401, is rejected
      unchanged and issues no refresh. */
  lemma OtherErrorsPassThrough(retried: bool, e: HttpError, refresh: Outcome, replay: Outcome)
    requires !IsUnauthorized(e)
    ensures Expected(retried, Rejected(e), refresh, replay) == Handled(Rejected(e), 0, 0, retried)
  {
  }

  /** A failed refresh rejects the ORIGINAL 401 error, never the refresh's own
      error, whatever that error is (a 401 from `/refresh-token` included). */
  lemma RefreshFailureRejectsOriginal(e: HttpError, refreshError: HttpError, replay: Outcome)
    requires IsUnauthorized(e)
    ensures Expected(false, Rejected(e), Rejected(refreshError), replay) == Handled(Rejected(e), 1, 0, true)
  {
  }

  /** A request already marked is rejected as it is, with no second refresh. */
  lemma MarkedRequestNotRetried(first: Outcome, refresh: Outcome, replay: Outcome)
    ensures Expected(true, first, refresh, replay) == Handled(first, 0, 0, true)
  {
  }

  /** The retry budget is one: however often the same request config passes
      through the interceptor, together the passes issue at most one refresh. */
  lemma RetryBudgetIsOne(retried: bool, o1: Outcome, f1: Outcome, p1: Outcome, o2: Outcome, f2: Outcome, p2: Outcome)
    ensures var h1 := Expected(retried, o1, f1, p1);
            h1.refreshCalls + Expected(h1.retried, o2, f2, p2).refreshCalls <= 1
  {
  }

  /** One request's inputs to the interceptor. */
  datatype Exchange = Exchange(retried: bool, first: Outcome, refresh: Outcome, replay: Outcome)

  /** Refresh posts issued by a batch of independent requests. */
  function TotalRefreshes(xs: seq<Exchange>): nat
    decreases |xs|
  {
    if xs == [] then 0
    else Expected(xs[0].retried, xs[0].first, xs[0].refresh, xs[0].replay).refreshCalls + TotalRefreshes(xs[1..])
  }

  /** N requests issue at most N refresh posts. */
  lemma {:induction false} RefreshesAtMostOnePerRequest(xs: seq<Exchange>)
    ensures TotalRefreshes(xs) <= |xs|
    decreases |xs|
  {
    if xs != [] {
      RefreshesAtMostOnePerRequest(xs[1..]);
    }
  }

  /** No coalescing: when N unmarked requests each meet a 401, N refresh posts
      are issued, one per request, since no in-flight refresh is shared. */
  lemma {:induction false} EveryUnauthorizedRequestRefreshes(xs: seq<Exchange>)
    requires forall i :: 0 <= i < |xs| ==> !xs[i].retried && xs[i].first.Rejected? && IsUnauthorized(xs[i].first.error)
    ensures TotalRefreshes(xs) == |xs|
    decreases |xs|
  {
    if xs != [] {
      EveryUnauthorizedRequestRefreshes(xs[1..]);
    }
  }
}
