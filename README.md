# Three sequential pieces of the AWS provider, modelled and proved in Dafny

This project models three small, sequential parts of the Terraform AWS provider:

- **ECS capacity-provider pagination** (`ecs_pages.dfy`, module `EcsPages`). `DescribeCapacityProvidersPagesWithContext` requests a page and hands it to a callback with a `lastPage` flag. It stops on the first request error, when the callback returns false, or after the last page. Between requests it copies the page's `NextToken` into the input, in place.
  - The remote service is a finite map from request token to answer (a page or an error). A token the map does not hold is answered with an `InvalidParameterException` error.
  - The input is a class whose `nextToken` field the loop rewrites.
  - The callback is a pure function `(Output, bool) -> bool`. The method also returns the tokens it requested and the callback invocations it made, in order: that trace is what the callback observes.
  - The loop is proved against `Pages`, a recursive function. `Pages` is in turn proved to satisfy `ValidRun`, a declarative description of a run, and `ValidRun` is proved to admit only one run.
- **AppStream waiters** (`appstream_wait.dfy`, module `AppStreamWait`).
  - The five waiters' pending and target vocabularies and their timeouts are constants.
  - After the polling engine returns `(outputRaw, err)`, a waiter folds the object's embedded failure entries, in order, into one list of `"code: message"` strings, formatted as `aws.StringValue` reads them. It attaches that list to the engine's error as "last error". The error itself is a class with a mutable `lastError` field and is returned unchanged.
  - For image builders the list is attached only when the state is FAILED. For stacks and fleets it is attached whenever the list is non-empty.
- **Route 53 zone helpers** (`route53_zone.dfy`, module `Route53Zone`).
  - `CleanZoneID`, `CleanChangeID` and `TrimTrailingPeriod` are modelled from the tables of the zone tests. The argument of `TrimTrailingPeriod` is an `interface{}`; it is modelled as a datatype: string, string pointer, nil, or another type.
  - Three checks from the zone tests are modelled: the domain-name check, the VPC-association check (a search loop), and the random record batch, with its 100-record limit.

`aws.dfy` (module `Aws`) holds the nil-able pointer type `Option` and `aws.StringValue`.

The waiters do not implement a polling engine. They configure the plugin SDK's `StateChangeConf.WaitForStateContext`, which lives outside this repository, and post-process its result; the model covers the configuration and the post-processing. Only the image-builder waiters check the object's state before attaching failure reasons. For stacks and fleets the waiter calls `SetLastError` for any non-empty list whatever the state, also when `err` is nil, in which case nothing is attached.

## Model

| member | source | states |
|---|---|---|
| `EcsPages.Paginate` | internal/service/ecs/list_pages_gen.go:17-30 | A run makes at least one request, and the first request carries the input's token. It makes one callback call per request, one fewer when it ends on an error. |
| `EcsPages.PaginateIsValidRun` | internal/service/ecs/list_pages_gen.go:17-30 | The step-by-step run satisfies the declarative description `ValidRun`: token chain, one call per fetched page with the right flag, continuation only on a true callback result for a page that is not the last, and an ending on an error or on a page that was declined or was the last. |
| `EcsPages.ValidRunIsUnique` | internal/service/ecs/list_pages_gen.go:17-29 | Two runs that fit the declarative description are equal, so the description determines the loop's behaviour completely. |
| `EcsPages.RequestErrorEndsLoop` | internal/service/ecs/list_pages_gen.go:18-21 | A failed request is the last request. No callback call is made for it, and its error is returned. |
| `EcsPages.LastPageFlag` | internal/service/ecs/list_pages_gen.go:23 | Every `lastPage` flag handed to the callback is true exactly when that page's `NextToken` is nil or "". |
| `EcsPages.StopsWhenCallbackDeclines` | internal/service/ecs/list_pages_gen.go:24-26 | A callback call that returns false is the last one. No further request is made and nil is returned. |
| `EcsPages.StopsAfterLastPage` | internal/service/ecs/list_pages_gen.go:24-26 | A call flagged `lastPage` is the last one, whatever the callback returned. No further request is made and nil is returned. |
| `EcsPages.TokenChainOrder` | internal/service/ecs/list_pages_gen.go:28 | The first request uses the input's token. Each later request uses the previous page's `NextToken`, which is non-nil and non-empty. |
| `EcsPages.ValidRunStep` | internal/service/ecs/list_pages_gen.go:18-28 | In a run that fits the description, the callback is called for request k exactly when that request succeeded, with its page and flag. Request k + 1 exists exactly when the callback accepted page k and it was not the last, and then it carries page k's `NextToken`. |
| `EcsPages.LastTokenIsLastRequest` | internal/service/ecs/list_pages_gen.go:28 | The token the loop leaves in the input, `LastToken`, is the token of the run's last request. |
| `EcsPages.OneCallPerPage` | internal/service/ecs/list_pages_gen.go:17-30 | The k-th callback call receives the page of the k-th request. Nil is returned exactly when every request succeeded, which is exactly when there are as many calls as requests. |
| `EcsPages.DescribeCapacityProvidersPagesWithContext` | internal/service/ecs/list_pages_gen.go:16-31 | The loop makes the requests and callback calls of `Pages` and returns its error. It leaves the input's `NextToken` at `LastToken`, the token of the last request, and changes no other input field. |
| `EcsPages.DescribeCapacityProvidersPages` | internal/service/ecs/list_pages_gen.go:12-14 | The entry point without a context has the same contract as the context variant. |
| `AppStreamWait.TimeoutConstants` | internal/service/appstream/wait.go:15-26 | The timeouts are 4 min (stack), 180 min (fleet state), 15 min (fleet operation) and 60 min (image builder), in nanoseconds. |
| `AppStreamWait.StackDeletedVocabulary` | internal/service/appstream/wait.go:30-34 | Stack deletion has no pending states, has targets {"NotFound", "Unknown"} and uses the stack timeout. |
| `AppStreamWait.FleetVocabularies` | internal/service/appstream/wait.go:57-90 | Fleet running goes from {STARTING} to {RUNNING}, and fleet stopped from {STOPPING} to {STOPPED}. Both use the fleet-state timeout, and the two vocabularies share no state. |
| `AppStreamWait.ImageBuilderVocabularies` | internal/service/appstream/wait.go:113-146 | Image-builder running goes from {PENDING} to {RUNNING}. Image-builder deletion has pending {PENDING, DELETING} and an empty target set. Both use the image-builder timeout, and pending and target are disjoint. |
| `AppStreamWait.AggregateErrors` | internal/service/appstream/wait.go:40-44 | The accumulation loop yields one `"code: message"` entry per failure entry, in order, with a nil code or message read as "". |
| `AppStreamWait.FailureReasonsAppend` | internal/service/appstream/wait.go:42-44 | Aggregation preserves order: the aggregate of a concatenation is the concatenation of the aggregates. |
| `AppStreamWait.FailureReasonsExample` | internal/service/appstream/wait.go:43 | Entries A/"fail A" and B/"fail B" give ["A: fail A", "B: fail B"], and a nil code gives ": message". |
| `AppStreamWait.SetLastError` | internal/service/appstream/wait.go:46 | A non-nil primary error gets the aggregated list as its last error. A nil error is left alone. |
| `AppStreamWait.StackLastError` | internal/service/appstream/wait.go:38-47 | Something is attached exactly when the engine returned a stack with a non-empty error list. It is then one formatted entry per stack error, in order. |
| `AppStreamWait.FleetLastError` | internal/service/appstream/wait.go:66-75 | Something is attached exactly when the engine returned a fleet with a non-empty error list, whatever its state. It is then one formatted entry per fleet error, in order. |
| `AppStreamWait.ImageBuilderLastError` | internal/service/appstream/wait.go:122-131 | Something is attached exactly when the engine returned an image builder whose state is FAILED and whose error list is non-empty. It is then one formatted entry per error, in order. |
| `AppStreamWait.WaitStackStateDeleted` | internal/service/appstream/wait.go:36-52 | The primary error is returned unchanged. The stack is returned when the engine returned one, and nil otherwise. The error's last error becomes `StackLastError` when that is present and is otherwise untouched. |
| `AppStreamWait.WaitFleetStateRunning` | internal/service/appstream/wait.go:64-80 | The primary error is returned unchanged. The fleet is returned when the engine returned one, and nil otherwise. `FleetLastError` is attached when present. |
| `AppStreamWait.WaitFleetStateStopped` | internal/service/appstream/wait.go:92-108 | The primary error is returned unchanged. The fleet is returned when the engine returned one, and nil otherwise. `FleetLastError` is attached when present. |
| `AppStreamWait.WaitImageBuilderStateRunning` | internal/service/appstream/wait.go:120-136 | The primary error is returned unchanged. The image builder is returned when the engine returned one, and nil otherwise. `ImageBuilderLastError` is attached when present. |
| `AppStreamWait.WaitImageBuilderStateDeleted` | internal/service/appstream/wait.go:148-164 | Same as the running waiter: primary error unchanged, object passed through or nil, failure reasons attached only for a FAILED builder. |
| `Route53Zone.CleanZoneIDRoundTrip` | internal/service/route53/zone_test.go:25-27 | Cleaning "/hostedzone/" + id gives id back. An ID without that prefix is unchanged. |
| `Route53Zone.CleanZoneIDTable` | internal/service/route53/zone_test.go:21-36 | "/hostedzone/foo" becomes "foo". "/change/foo" and "/bar" are unchanged. |
| `Route53Zone.CleanChangeIDRoundTrip` | internal/service/route53/zone_test.go:42-44 | Cleaning "/change/" + id gives id back. An ID without that prefix is unchanged. |
| `Route53Zone.CleanChangeIDTable` | internal/service/route53/zone_test.go:38-53 | "/change/foo" becomes "foo". "/hostedzone/foo" and "/bar" are unchanged. |
| `Route53Zone.TrimTrailingPeriodRoundTrip` | internal/service/route53/zone_test.go:61-62 | For a non-empty name, name + "." trims back to name. The root "." stays ".". |
| `Route53Zone.TrimTrailingPeriodKeeps` | internal/service/route53/zone_test.go:60 | A name that does not end in a period is returned unchanged. |
| `Route53Zone.TrimTrailingPeriodRemovesAtMostOne` | internal/service/route53/zone_test.go:60-64 | The result is the name itself, or the name with one trailing period removed, and "." is never trimmed. |
| `Route53Zone.TrimTrailingPeriodInputs` | internal/service/route53/zone_test.go:65-69 | A non-nil string pointer behaves like its string. A nil pointer, nil and a non-string value give "". |
| `Route53Zone.TrimTrailingPeriodTable` | internal/service/route53/zone_test.go:55-78 | All ten rows of the `TestTrimTrailingPeriod` table hold. |
| `Route53Zone.CheckDomainName` | internal/service/route53/zone_test.go:589-601 | The check passes exactly when the zone's name is set and equals the domain. A nil name and a different name give their respective error messages. |
| `Route53Zone.CheckZoneAssociatesWithVpc` | internal/service/route53/zone_test.go:568-587 | The check passes exactly when the resource exists, has a non-empty ID and some zone VPC has that ID. Each failure gives its message, the last with the cleaned zone ID. |
| `Route53Zone.BuildRandomRecordsRequest` | internal/service/route53/zone_test.go:470-494 | More than 100 records is an error, raised before anything is built. Otherwise the request holds exactly max(count, 0) UPSERT CNAME changes with TTL 30, each with its random name and the "random.<zone>" value, plus the zone ID and the "Generated by Terraform" comment. |

## Left out

- The plugin SDK's polling engine (`StateChangeConf.WaitForStateContext`: polling, backoff, wall-clock timeout, cancellation) is not part of this model. Each waiter takes the engine's `(outputRaw, err)` result as input.
- `statusStackState`, `statusFleetState` and `statusImageBuilderState` are defined elsewhere in the provider and issue remote calls, so the `Refresh` field of the state configuration is not modelled.
- `tfresource.SetLastError` and `multierror` are not part of this model. Attaching is modelled as recording the ordered list on any non-nil error. Whether the real helper skips some error kinds, or keeps a last error that is already set, is not captured.
- `SetLastError`: weaker than the source in two respects: the error kinds that carry a last error are not distinguished, and a last error that is already set is overwritten.
- Typed-nil objects are not represented: `Raw` has no case for an interface that holds a nil `*appstream.Stack`, `*appstream.Fleet` or `*appstream.ImageBuilder`, which passes the waiter's type assertion and is then dereferenced.
- The three AppStream error element types (`StackError`, `FleetError`, `ResourceError`) share one `ErrorEntry` datatype, because only their code and message are read.
- The remote `DescribeCapacityProvidersWithContext` call is a finite map from token to answer. The context is only forwarded to that call, so it is folded into the map. A context that is cancelled during the loop is therefore not modelled.
- `EcsPages.DescribeCapacityProvidersPagesWithContext`: requires `LoopEnds`, which holds exactly when the source loop terminates, for a callback whose result depends only on the page. The loop does not terminate when the token chain runs into a cycle and the callback never declines; such inputs are excluded.
- The callback is a pure function. Its side effects are visible through the returned trace of calls, not as state.
- Every acceptance test, existence and destroy check, and HCL configuration builder in the zone tests is left out: they make live AWS calls.
- In the random record batch, `sdkacctest.RandInt` is a parameter `rand`, where `rand(i)` is the i-th drawn number. The `ChangeRecordSet` call and the wait for the change to sync are remote and not modelled.
- `BuildRandomRecordsRequest`: requires the zone name to be set whenever at least one record is built, because the source dereferences it for each record.
- The production definitions of `CleanZoneID`, `CleanChangeID` and `TrimTrailingPeriod` are not part of this model. They are modelled as prefix trimming and one-period suffix trimming, agreeing with every asserted row of the tables.
