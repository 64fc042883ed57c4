/** The generated pagination helper for the ECS `DescribeCapacityProviders`
    operation: request a page, hand it to a callback together with a
    `lastPage` flag, and follow `NextToken` until a request fails, the
    callback declines more pages, or the last page has been delivered.

    The remote service is a finite map from the request's `NextToken` to the
    answer it gives for that token: a page or an error. A token the map does
    not know is answered with `UnknownTokenError`. */
module EcsPages {
  import opened Aws

  /** The `NextToken` of a request or a response (a `*string`). */
  type Token = Option<string>

  /** `ecs.DescribeCapacityProvidersOutput`: the page's capacity providers and
      the token of the next page. */
  datatype Output = Output(capacityProviders: seq<string>, nextToken: Token)

  /** An error returned by the remote call. */
  datatype ApiError = ApiError(code: string, message: string)

  /** What one `DescribeCapacityProvidersWithContext` call returns. */
  datatype Response = Page(output: Output) | Fail(error: ApiError)

  /** The remote service, as the answer it gives for each request token. */
  type Service = map<Token, Response>

  /** The answer to a request whose token the service does not know. */
  const UnknownTokenError := ApiError("InvalidParameterException", "The specified token is not valid.")

  /** One remote call: `conn.DescribeCapacityProvidersWithContext(ctx, input)`
      for an input whose `NextToken` is `tok`. */
  function Request(svc: Service, tok: Token): Response {
    if tok in svc then svc[tok] else Fail(UnknownTokenError)
  }

  /** `aws.StringValue(output.NextToken) == ""`. */
  predicate IsLastPage(out: Output) {
    StringValue(out.nextToken) == ""
  }

  /** A page that is not the last one carries a non-empty token. */
  lemma NotLastPageHasToken(out: Output)
    requires !IsLastPage(out)
    ensures out.nextToken.Some? && out.nextToken.value != ""
  {
  }

  /** One invocation of the callback: the page and the `lastPage` flag. */
  datatype Call = Call(page: Output, lastPage: bool)

  /** What one run of the loop does: the tokens it requested, in order, the
      callback invocations it made, in order, and the error it returned. */
  datatype Run = Run(requests: seq<Token>, calls: seq<Call>, err: Option<ApiError>)

  /** The loop, started at request token `tok`, ends. `seen` holds the tokens
      already requested by this run; since the service and the callback are
      deterministic, requesting one of them again and continuing would repeat
      the same steps forever. */
  predicate LoopEnds(svc: Service, fn: (Output, bool) -> bool, tok: Token, seen: set<Token>)
    decreases svc.Keys - seen
  {
    match Request(svc, tok)
    case Fail(_) => true
    case Page(out) =>
      !fn(out, IsLastPage(out)) || IsLastPage(out) ||
      (tok !in seen && LoopEnds(svc, fn, out.nextToken, seen + {tok}))
  }

  /** The run of the loop from request token `tok`, step by step as the
      source takes it. */
  function Paginate(svc: Service, fn: (Output, bool) -> bool, tok: Token, seen: set<Token>): (r: Run)
    requires LoopEnds(svc, fn, tok, seen)
    ensures |r.requests| >= 1 && r.requests[0] == tok
    ensures |r.calls| == |r.requests| - (if r.err.Some? then 1 else 0)
    decreases svc.Keys - seen
  {
    match Request(svc, tok)
    case Fail(e) => Run([tok], [], Some(e))
    case Page(out) =>
      var last := IsLastPage(out);
      if !fn(out, last) || last then
        Run([tok], [Call(out, last)], None)
      else
        var rest := Paginate(svc, fn, out.nextToken, seen + {tok});
        Run([tok] + rest.requests, [Call(out, last)] + rest.calls, rest.err)
  }

  /** The run from `tok` with no token requested yet. */
  function Pages(svc: Service, fn: (Output, bool) -> bool, tok: Token): (r: Run)
    requires LoopEnds(svc, fn, tok, {})
    ensures |r.requests| >= 1 && r.requests[0] == tok
    ensures |r.calls| == |r.requests| - (if r.err.Some? then 1 else 0)
  {
    Paginate(svc, fn, tok, {})
  }

  /** The token of the last request the loop makes from `tok`: the loop
      leaves it in the input's `NextToken`. */
  function LastToken(svc: Service, fn: (Output, bool) -> bool, tok: Token, seen: set<Token>): (t: Token)
    requires LoopEnds(svc, fn, tok, seen)
    decreases svc.Keys - seen
  {
    match Request(svc, tok)
    case Fail(_) => tok
    case Page(out) =>
      if !fn(out, IsLastPage(out)) || IsLastPage(out) then tok
      else LastToken(svc, fn, out.nextToken, seen + {tok})
  }

  /** `LastToken` is the token of the last request of the run. */
  lemma {:induction false} LastTokenIsLastRequest(svc: Service, fn: (Output, bool) -> bool, tok: Token, seen: set<Token>)
    requires LoopEnds(svc, fn, tok, seen)
    ensures var r := Paginate(svc, fn, tok, seen);
      LastToken(svc, fn, tok, seen) == r.requests[|r.requests| - 1]
    decreases svc.Keys - seen
  {
    match Request(svc, tok)
    case Fail(_) =>
    case Page(out) =>
      if !fn(out, IsLastPage(out)) || IsLastPage(out) {
      } else {
        LastTokenIsLastRequest(svc, fn, out.nextToken, seen + {tok});
      }
  }

  /** The run made of the given requests and callback invocations followed
      by the rest run `rest`. */
  function Stitch(requests: seq<Token>, calls: seq<Call>, rest: Run): Run {
    Run(requests + rest.requests, calls + rest.calls, rest.err)
  }

  /** A step of the loop whose request fails ends the run with that error. */
  lemma PaginateFails(svc: Service, fn: (Output, bool) -> bool, tok: Token, seen: set<Token>, e: ApiError)
    requires LoopEnds(svc, fn, tok, seen)
    requires Request(svc, tok) == Fail(e)
    ensures Paginate(svc, fn, tok, seen) == Run([tok], [], Some(e))
  {
  }

  /** A step of the loop whose page the callback declines, or that is the
      last page, ends the run without an error. */
  lemma PaginateStops(svc: Service, fn: (Output, bool) -> bool, tok: Token, seen: set<Token>, out: Output)
    requires LoopEnds(svc, fn, tok, seen)
    requires Request(svc, tok) == Page(out) && (!fn(out, IsLastPage(out)) || IsLastPage(out))
    ensures Paginate(svc, fn, tok, seen) == Run([tok], [Call(out, IsLastPage(out))], None)
  {
  }

  /** One step of the loop that goes on to the next page: the run from `tok`
      is that page followed by the run from the page's `NextToken`. */
  lemma PaginateContinues(svc: Service, fn: (Output, bool) -> bool, tok: Token, seen: set<Token>, out: Output)
    requires LoopEnds(svc, fn, tok, seen)
    requires Request(svc, tok) == Page(out) && fn(out, IsLastPage(out)) && !IsLastPage(out)
    ensures tok in svc.Keys - seen
    ensures LoopEnds(svc, fn, out.nextToken, seen + {tok})
    ensures var rest := Paginate(svc, fn, out.nextToken, seen + {tok});
      Paginate(svc, fn, tok, seen) == Run([tok] + rest.requests, [Call(out, false)] + rest.calls, rest.err)
  {
  }

  /** The loop's invariant across a failed request: the whole run is what
      was already done, that request, and the error. */
  lemma LoopStepFails(svc: Service, fn: (Output, bool) -> bool, whole: Run, requests: seq<Token>, calls: seq<Call>,
                      tok: Token, seen: set<Token>, e: ApiError)
    requires LoopEnds(svc, fn, tok, seen)
    requires whole == Stitch(requests, calls, Paginate(svc, fn, tok, seen))
    requires Request(svc, tok) == Fail(e)
    ensures whole == Run(requests + [tok], calls, Some(e))
    ensures LastToken(svc, fn, tok, seen) == tok
  {
    PaginateFails(svc, fn, tok, seen, e);
    assert calls + [] == calls;
  }

  /** The loop's invariant across a page that ends the loop. */
  lemma LoopStepStops(svc: Service, fn: (Output, bool) -> bool, whole: Run, requests: seq<Token>, calls: seq<Call>,
                      tok: Token, seen: set<Token>, out: Output)
    requires LoopEnds(svc, fn, tok, seen)
    requires whole == Stitch(requests, calls, Paginate(svc, fn, tok, seen))
    requires Request(svc, tok) == Page(out) && (!fn(out, IsLastPage(out)) || IsLastPage(out))
    ensures whole == Run(requests + [tok], calls + [Call(out, IsLastPage(out))], None)
    ensures LastToken(svc, fn, tok, seen) == tok
  {
    PaginateStops(svc, fn, tok, seen, out);
  }

  /** The loop's invariant across a page after which the loop goes on with
      the page's `NextToken`. */
  lemma LoopStepContinues(svc: Service, fn: (Output, bool) -> bool, whole: Run, requests: seq<Token>, calls: seq<Call>,
                          tok: Token, seen: set<Token>, out: Output)
    requires LoopEnds(svc, fn, tok, seen)
    requires whole == Stitch(requests, calls, Paginate(svc, fn, tok, seen))
    requires Request(svc, tok) == Page(out) && fn(out, IsLastPage(out)) && !IsLastPage(out)
    ensures tok in svc.Keys - seen
    ensures LoopEnds(svc, fn, out.nextToken, seen + {tok})
    ensures whole
         == Stitch(requests + [tok], calls + [Call(out, false)], Paginate(svc, fn, out.nextToken, seen + {tok}))
    ensures LastToken(svc, fn, tok, seen) == LastToken(svc, fn, out.nextToken, seen + {tok})
  {
    PaginateContinues(svc, fn, tok, seen, out);
    var rest := Paginate(svc, fn, out.nextToken, seen + {tok});
    assert requests + ([tok] + rest.requests) == (requests + [tok]) + rest.requests;
    assert calls + ([Call(out, false)] + rest.calls) == (calls + [Call(out, false)]) + rest.calls;
  }

  /** Request `i` of `r` returned page `i`, and the callback saw that page
      with the flag `lastPage` computed from its `NextToken`. */
  ghost predicate Delivered(svc: Service, r: Run, i: int)
    requires 0 <= i < |r.calls| && i < |r.requests|
  {
    Request(svc, r.requests[i]) == Page(r.calls[i].page) &&
    r.calls[i].lastPage == IsLastPage(r.calls[i].page)
  }

  /** The loop went on after page `i` of `r`: the callback accepted it, it
      was not the last page, and request `i + 1` carried its `NextToken`. */
  ghost predicate Continued(fn: (Output, bool) -> bool, r: Run, i: int)
    requires 0 <= i < |r.calls| && i + 1 < |r.requests|
  {
    r.requests[i + 1] == r.calls[i].page.nextToken &&
    fn(r.calls[i].page, r.calls[i].lastPage) && !r.calls[i].lastPage
  }

  /** A declarative description of a run of the loop from `tok`: the first
      request uses `tok`; each successful request yields exactly one callback
      invocation with its page and the flag `lastPage`; the loop went on only
      after the callback returned true on a page that was not the last, with
      that page's `NextToken`; and it ended on a failed request (returning
      its error) or on a delivered page the callback declined or that was the
      last one (returning nil). */
  ghost predicate ValidRun(svc: Service, fn: (Output, bool) -> bool, tok: Token, r: Run) {
    && |r.requests| >= 1
    && r.requests[0] == tok
    && |r.calls| == |r.requests| - (if r.err.Some? then 1 else 0)
    && (forall i :: 0 <= i < |r.calls| ==> Delivered(svc, r, i))
    && (forall i :: 0 <= i < |r.requests| - 1 ==> Continued(fn, r, i))
    && (r.err.Some? ==> Request(svc, r.requests[|r.requests| - 1]) == Fail(r.err.value))
    && (r.err.None? ==>
          var c := r.calls[|r.calls| - 1]; !fn(c.page, c.lastPage) || c.lastPage)
  }

  /** What a run that fits the description does at request `k`: the
      callback is invoked exactly when the request succeeds, with that page
      and its flag, and another request follows exactly when the callback
      accepted a page that was not the last, using that page's `NextToken`. */
  lemma ValidRunStep(svc: Service, fn: (Output, bool) -> bool, tok: Token, r: Run, k: nat)
    requires ValidRun(svc, fn, tok, r)
    requires k < |r.requests|
    ensures k < |r.calls| <==> Request(svc, r.requests[k]).Page?
    ensures k < |r.calls| ==>
      var out := Request(svc, r.requests[k]).output; r.calls[k] == Call(out, IsLastPage(out))
    ensures k + 1 < |r.requests| <==>
      (k < |r.calls| && fn(r.calls[k].page, r.calls[k].lastPage) && !r.calls[k].lastPage)
    ensures k + 1 < |r.requests| ==> r.requests[k + 1] == r.calls[k].page.nextToken
  {
    if k < |r.calls| {
      assert Delivered(svc, r, k);
    }
    if k + 1 < |r.requests| {
      assert Continued(fn, r, k);
    }
  }

  /** Prepending a page the callback accepted, and that is not the last, to
      a run from that page's `NextToken` gives a run from the page's own
      token. */
  lemma ValidRunCons(svc: Service, fn: (Output, bool) -> bool, tok: Token, out: Output, rest: Run)
    requires Request(svc, tok) == Page(out) && fn(out, false) && !IsLastPage(out)
    requires ValidRun(svc, fn, out.nextToken, rest)
    ensures ValidRun(svc, fn, tok, Run([tok] + rest.requests, [Call(out, false)] + rest.calls, rest.err))
  {
    var r := Run([tok] + rest.requests, [Call(out, false)] + rest.calls, rest.err);
    forall i | 0 <= i < |r.calls|
      ensures Delivered(svc, r, i)
    {
      if i > 0 {
        assert Delivered(svc, rest, i - 1);
        assert r.requests[i] == rest.requests[i - 1];
      }
    }
    forall i | 0 <= i < |r.requests| - 1
      ensures Continued(fn, r, i)
    {
      if i > 0 {
        assert Continued(fn, rest, i - 1);
        assert r.requests[i + 1] == rest.requests[i];
      }
    }
    assert r.requests[|r.requests| - 1] == rest.requests[|rest.requests| - 1];
  }

  /** The step-by-step run satisfies the declarative description. */
  lemma {:induction false} PaginateIsValidRun(svc: Service, fn: (Output, bool) -> bool, tok: Token, seen: set<Token>)
    requires LoopEnds(svc, fn, tok, seen)
    ensures ValidRun(svc, fn, tok, Paginate(svc, fn, tok, seen))
    decreases svc.Keys - seen
  {
    match Request(svc, tok)
    case Fail(e) =>
    case Page(out) =>
      if !fn(out, IsLastPage(out)) || IsLastPage(out) {
        assert Delivered(svc, Paginate(svc, fn, tok, seen), 0);
      } else {
        PaginateContinues(svc, fn, tok, seen, out);
        PaginateIsValidRun(svc, fn, out.nextToken, seen + {tok});
        ValidRunCons(svc, fn, tok, out, Paginate(svc, fn, out.nextToken, seen + {tok}));
      }
  }

  /** Two runs that fit the description agree on request `k` and on the
      callback invocation for it, and if one of them goes on past request
      `k`, so does the other. */
  lemma {:induction false} ValidRunsAgreeUpTo(svc: Service, fn: (Output, bool) -> bool, tok: Token, r1: Run, r2: Run, k: nat)
    requires ValidRun(svc, fn, tok, r1) && ValidRun(svc, fn, tok, r2)
    requires k < |r1.requests| && k < |r2.requests|
    ensures r1.requests[k] == r2.requests[k]
    ensures k < |r2.calls| ==> k < |r1.calls| && r1.calls[k] == r2.calls[k]
    ensures k + 1 < |r2.requests| ==> k + 1 < |r1.requests|
  {
    if k > 0 {
      ValidRunsAgreeUpTo(svc, fn, tok, r1, r2, k - 1);
      ValidRunStep(svc, fn, tok, r1, k - 1);
      ValidRunStep(svc, fn, tok, r2, k - 1);
    }
    ValidRunStep(svc, fn, tok, r1, k);
    ValidRunStep(svc, fn, tok, r2, k);
  }

  /** A run that fits the description is not a strict prefix of another. */
  lemma ValidRunNotShorter(svc: Service, fn: (Output, bool) -> bool, tok: Token, r1: Run, r2: Run)
    requires ValidRun(svc, fn, tok, r1) && ValidRun(svc, fn, tok, r2)
    ensures |r2.requests| <= |r1.requests|
  {
    if |r1.requests| <= |r2.requests| {
      ValidRunsAgreeUpTo(svc, fn, tok, r1, r2, |r1.requests| - 1);
    }
  }

  /** At most one run fits the declarative description: it pins the loop's
      behaviour down completely. */
  lemma ValidRunIsUnique(svc: Service, fn: (Output, bool) -> bool, tok: Token, r1: Run, r2: Run)
    requires ValidRun(svc, fn, tok, r1) && ValidRun(svc, fn, tok, r2)
    ensures r1 == r2
  {
    ValidRunNotShorter(svc, fn, tok, r1, r2);
    ValidRunNotShorter(svc, fn, tok, r2, r1);
    var n := |r1.requests|;
    forall k | 0 <= k < n ensures r1.requests[k] == r2.requests[k] {
      ValidRunsAgreeUpTo(svc, fn, tok, r1, r2, k);
    }
    ValidRunsAgreeUpTo(svc, fn, tok, r1, r2, n - 1);
    ValidRunsAgreeUpTo(svc, fn, tok, r2, r1, n - 1);
    forall k | 0 <= k < |r1.calls| ensures r1.calls[k] == r2.calls[k] {
      ValidRunsAgreeUpTo(svc, fn, tok, r2, r1, k);
    }
  }

  /** A failed request ends the loop at once: it is the last request, the
      callback is not invoked for it, and its error is what the loop returns. */
  lemma RequestErrorEndsLoop(svc: Service, fn: (Output, bool) -> bool, tok: Token, k: nat)
    requires LoopEnds(svc, fn, tok, {})
    requires k < |Pages(svc, fn, tok).requests|
    requires Request(svc, Pages(svc, fn, tok).requests[k]).Fail?
    ensures var r := Pages(svc, fn, tok);
      k == |r.requests| - 1 && |r.calls| == k &&
      r.err == Some(Request(svc, r.requests[k]).error)
  {
    PaginateIsValidRun(svc, fn, tok, {});
    ValidRunStep(svc, fn, tok, Pages(svc, fn, tok), k);
  }

  /** The `lastPage` flag handed to the callback is true exactly when the
      page's `NextToken` is nil or the empty string. */
  lemma LastPageFlag(svc: Service, fn: (Output, bool) -> bool, tok: Token)
    requires LoopEnds(svc, fn, tok, {})
    ensures var r := Pages(svc, fn, tok);
      forall k :: 0 <= k < |r.calls| ==>
        (r.calls[k].lastPage <==> r.calls[k].page.nextToken in {None, Some("")})
  {
    var r := Pages(svc, fn, tok);
    PaginateIsValidRun(svc, fn, tok, {});
    forall k | 0 <= k < |r.calls|
      ensures r.calls[k].lastPage <==> r.calls[k].page.nextToken in {None, Some("")}
    {
      assert Delivered(svc, r, k);
    }
  }

  /** When the callback returns false the loop stops right there, without
      an error, even if more pages exist. */
  lemma StopsWhenCallbackDeclines(svc: Service, fn: (Output, bool) -> bool, tok: Token, k: nat)
    requires LoopEnds(svc, fn, tok, {})
    requires k < |Pages(svc, fn, tok).calls|
    requires var c := Pages(svc, fn, tok).calls[k]; !fn(c.page, c.lastPage)
    ensures var r := Pages(svc, fn, tok);
      k == |r.calls| - 1 && |r.requests| == |r.calls| && r.err == None
  {
    PaginateIsValidRun(svc, fn, tok, {});
    ValidRunStep(svc, fn, tok, Pages(svc, fn, tok), k);
  }

  /** Once the last page has been delivered the loop stops, without an
      error, whatever the callback returned. */
  lemma StopsAfterLastPage(svc: Service, fn: (Output, bool) -> bool, tok: Token, k: nat)
    requires LoopEnds(svc, fn, tok, {})
    requires k < |Pages(svc, fn, tok).calls|
    requires Pages(svc, fn, tok).calls[k].lastPage
    ensures var r := Pages(svc, fn, tok);
      k == |r.calls| - 1 && |r.requests| == |r.calls| && r.err == None
  {
    PaginateIsValidRun(svc, fn, tok, {});
    ValidRunStep(svc, fn, tok, Pages(svc, fn, tok), k);
  }

  /** Pages are requested in token-chain order: the first request carries the
      input's token and every later one the previous page's non-empty
      `NextToken`. */
  lemma TokenChainOrder(svc: Service, fn: (Output, bool) -> bool, tok: Token)
    requires LoopEnds(svc, fn, tok, {})
    ensures var r := Pages(svc, fn, tok);
      && r.requests[0] == tok
      && forall k :: 1 <= k < |r.requests| ==>
           r.requests[k] == r.calls[k - 1].page.nextToken &&
           r.requests[k].Some? && r.requests[k].value != ""
  {
    var r := Pages(svc, fn, tok);
    PaginateIsValidRun(svc, fn, tok, {});
    forall k | 1 <= k < |r.requests|
      ensures r.requests[k] == r.calls[k - 1].page.nextToken
      ensures r.requests[k].Some? && r.requests[k].value != ""
    {
      ValidRunStep(svc, fn, tok, r, k - 1);
      NotLastPageHasToken(r.calls[k - 1].page);
    }
  }

  /** The callback is invoked once per successfully fetched page, in fetch
      order, and the loop returns nil exactly when no request failed. */
  lemma OneCallPerPage(svc: Service, fn: (Output, bool) -> bool, tok: Token)
    requires LoopEnds(svc, fn, tok, {})
    ensures var r := Pages(svc, fn, tok);
      && (forall k :: 0 <= k < |r.calls| ==> Request(svc, r.requests[k]) == Page(r.calls[k].page))
      && (r.err == None <==> |r.calls| == |r.requests|)
      && (r.err == None <==> forall k :: 0 <= k < |r.requests| ==> Request(svc, r.requests[k]).Page?)
  {
    var r := Pages(svc, fn, tok);
    PaginateIsValidRun(svc, fn, tok, {});
    forall k | 0 <= k < |r.calls|
      ensures Request(svc, r.requests[k]) == Page(r.calls[k].page)
    {
      assert Delivered(svc, r, k);
    }
  }

  /** `ecs.DescribeCapacityProvidersInput`. The loop rewrites its `NextToken`
      in place between requests. */
  class DescribeCapacityProvidersInput {
    var capacityProviders: seq<string>
    var includes: seq<string>
    var maxResults: Option<int>
    var nextToken: Token

    constructor (capacityProviders: seq<string>, includes: seq<string>, maxResults: Option<int>, nextToken: Token)
      ensures this.capacityProviders == capacityProviders && this.includes == includes
      ensures this.maxResults == maxResults && this.nextToken == nextToken
    {
      this.capacityProviders := capacityProviders;
      this.includes := includes;
      this.maxResults := maxResults;
      this.nextToken := nextToken;
    }
  }

  /** `DescribeCapacityProvidersPagesWithContext`. Besides the error, the
      model returns the tokens it requested and the callback invocations it
      made, in order. */
  method DescribeCapacityProvidersPagesWithContext(svc: Service, input: DescribeCapacityProvidersInput, fn: (Output, bool) -> bool)
    returns (err: Option<ApiError>, requests: seq<Token>, calls: seq<Call>)
    requires LoopEnds(svc, fn, input.nextToken, {})
    modifies input`nextToken
    ensures var r := Pages(svc, fn, old(input.nextToken));
      err == r.err && requests == r.requests && calls == r.calls
    ensures input.nextToken == LastToken(svc, fn, old(input.nextToken), {})
    ensures input.capacityProviders == old(input.capacityProviders) && input.includes == old(input.includes)
    ensures input.maxResults == old(input.maxResults)
  {
    ghost var whole := Pages(svc, fn, input.nextToken);
    ghost var last := LastToken(svc, fn, input.nextToken, {});
    ghost var seen: set<Token> := {};
    requests, calls := [], [];
    while true
      invariant LoopEnds(svc, fn, input.nextToken, seen)
      invariant whole == Stitch(requests, calls, Paginate(svc, fn, input.nextToken, seen))
      invariant last == LastToken(svc, fn, input.nextToken, seen)
      decreases svc.Keys - seen
    {
      var tok := input.nextToken;
      var response := Request(svc, tok);
      if response.Fail? {
        LoopStepFails(svc, fn, whole, requests, calls, tok, seen, response.error);
        requests := requests + [tok];
        err := Some(response.error);
        return;
      }
      var output := response.output;
      var lastPage := StringValue(output.nextToken) == "";
      if !fn(output, lastPage) || lastPage {
        LoopStepStops(svc, fn, whole, requests, calls, tok, seen, output);
        requests := requests + [tok];
        calls := calls + [Call(output, lastPage)];
        break;
      }
      LoopStepContinues(svc, fn, whole, requests, calls, tok, seen, output);
      requests := requests + [tok];
      calls := calls + [Call(output, lastPage)];
      seen := seen + {tok};
      input.nextToken := output.nextToken;
    }
    err := None;
  }

  /** `DescribeCapacityProvidersPages`: the same loop with
      `context.Background()`. */
  method DescribeCapacityProvidersPages(svc: Service, input: DescribeCapacityProvidersInput, fn: (Output, bool) -> bool)
    returns (err: Option<ApiError>, requests: seq<Token>, calls: seq<Call>)
    requires LoopEnds(svc, fn, input.nextToken, {})
    modifies input`nextToken
    ensures var r := Pages(svc, fn, old(input.nextToken));
      err == r.err && requests == r.requests && calls == r.calls
    ensures input.nextToken == LastToken(svc, fn, old(input.nextToken), {})
    ensures input.capacityProviders == old(input.capacityProviders) && input.includes == old(input.includes)
    ensures input.maxResults == old(input.maxResults)
  {
    err, requests, calls := DescribeCapacityProvidersPagesWithContext(svc, input, fn);
  }
}
