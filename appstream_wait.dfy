/** The AppStream waiters: each one fixes a pending and a target state
    vocabulary and a timeout for the plugin SDK's polling engine, and after
    the engine returns it folds the failure entries embedded in the returned
    object, in order, into one aggregated error that it attaches to the
    engine's error as its "last error", without replacing that error.

    The polling engine itself is not part of this model: each waiter takes
    the `(outputRaw, err)` pair that `StateChangeConf.WaitForStateContext`
    returned as its input. */
module AppStreamWait {
  import opened Aws

  /** `time.Duration`: a number of nanoseconds. */
  type Duration = nat

  const Minute: Duration := 60 * 1000 * 1000 * 1000

  /** Maximum time to wait for Stack operation eventual consistency. */
  const StackOperationTimeout: Duration := 4 * Minute
  /** Maximum time to wait for a fleet to be RUNNING or STOPPED. */
  const FleetStateTimeout: Duration := 180 * Minute
  /** Maximum time to wait for Fleet operation eventual consistency. */
  const FleetOperationTimeout: Duration := 15 * Minute
  /** Maximum time to wait for an image builder to be RUNNING or deleted. */
  const ImageBuilderStateTimeout: Duration := 60 * Minute

  // State names of the AppStream API.
  const FleetStateStarting := "STARTING"
  const FleetStateRunning := "RUNNING"
  const FleetStateStopping := "STOPPING"
  const FleetStateStopped := "STOPPED"
  const ImageBuilderStatePending := "PENDING"
  const ImageBuilderStateRunning := "RUNNING"
  const ImageBuilderStateDeleting := "DELETING"
  const ImageBuilderStateFailed := "FAILED"

  /** The part of `resource.StateChangeConf` a waiter fixes: the pending and
      target states and the timeout. The refresh function is not modelled. */
  datatype StateChangeConf = StateChangeConf(pending: set<string>, target: set<string>, timeout: Duration)

  const StackStateDeletedConf := StateChangeConf({}, {"NotFound", "Unknown"}, StackOperationTimeout)
  const FleetStateRunningConf := StateChangeConf({FleetStateStarting}, {FleetStateRunning}, FleetStateTimeout)
  const FleetStateStoppedConf := StateChangeConf({FleetStateStopping}, {FleetStateStopped}, FleetStateTimeout)
  const ImageBuilderStateRunningConf :=
    StateChangeConf({ImageBuilderStatePending}, {ImageBuilderStateRunning}, ImageBuilderStateTimeout)
  const ImageBuilderStateDeletedConf :=
    StateChangeConf({ImageBuilderStatePending, ImageBuilderStateDeleting}, {}, ImageBuilderStateTimeout)

  /** The four timeouts, in nanoseconds. */
  lemma TimeoutConstants()
    ensures StackOperationTimeout == 240_000_000_000
    ensures FleetStateTimeout == 10_800_000_000_000
    ensures FleetOperationTimeout == 900_000_000_000
    ensures ImageBuilderStateTimeout == 3_600_000_000_000
  {
  }

  /** A state vocabulary is well formed when no state is both pending and a
      target. */
  predicate Disjoint(c: StateChangeConf) {
    c.pending * c.target == {}
  }

  /** Stack deletion waits, for at most four minutes, until the stack is
      "NotFound" or "Unknown", with no pending state. */
  lemma StackDeletedVocabulary()
    ensures StackStateDeletedConf.pending == {} && StackStateDeletedConf.target == {"NotFound", "Unknown"}
    ensures StackStateDeletedConf.timeout == StackOperationTimeout && Disjoint(StackStateDeletedConf)
  {
  }

  /** The fleet waiters wait, for at most 180 minutes, from STARTING to
      RUNNING and from STOPPING to STOPPED; the two vocabularies share no
      state. */
  lemma FleetVocabularies()
    ensures FleetStateRunningConf.pending == {"STARTING"} && FleetStateRunningConf.target == {"RUNNING"}
    ensures FleetStateStoppedConf.pending == {"STOPPING"} && FleetStateStoppedConf.target == {"STOPPED"}
    ensures FleetStateRunningConf.timeout == FleetStateStoppedConf.timeout == FleetStateTimeout
    ensures Disjoint(FleetStateRunningConf) && Disjoint(FleetStateStoppedConf)
    ensures (FleetStateRunningConf.pending + FleetStateRunningConf.target) *
            (FleetStateStoppedConf.pending + FleetStateStoppedConf.target) == {}
  {
    assert FleetStateStarting != FleetStateRunning && FleetStateStopping != FleetStateStopped;
    assert FleetStateRunning != FleetStateStopped && FleetStateRunning != FleetStateStopping;
    assert FleetStateStarting != FleetStateStopped && FleetStateStarting != FleetStateStopping;
  }

  /** The image builder waiters wait, for at most 60 minutes, from PENDING
      to RUNNING, and while PENDING or DELETING with no target state (the
      builder is to disappear). */
  lemma ImageBuilderVocabularies()
    ensures ImageBuilderStateRunningConf.pending == {"PENDING"} && ImageBuilderStateRunningConf.target == {"RUNNING"}
    ensures ImageBuilderStateDeletedConf.pending == {"PENDING", "DELETING"} && ImageBuilderStateDeletedConf.target == {}
    ensures ImageBuilderStateRunningConf.timeout == ImageBuilderStateDeletedConf.timeout == ImageBuilderStateTimeout
    ensures Disjoint(ImageBuilderStateRunningConf) && Disjoint(ImageBuilderStateDeletedConf)
  {
    assert ImageBuilderStatePending != ImageBuilderStateRunning;
  }

  /** An `appstream.StackError`, `appstream.FleetError` or
      `appstream.ResourceError`: a code and a message, either of which may be
      nil. */
  datatype ErrorEntry = ErrorEntry(errorCode: Option<string>, errorMessage: Option<string>)

  datatype Stack = Stack(name: Option<string>, stackErrors: seq<ErrorEntry>)
  datatype Fleet = Fleet(name: Option<string>, state: Option<string>, fleetErrors: seq<ErrorEntry>)
  datatype ImageBuilder = ImageBuilder(name: Option<string>, state: Option<string>, imageBuilderErrors: seq<ErrorEntry>)

  /** The `interface{}` value the polling engine returns: nil or one of the
      API's objects. */
  datatype Raw = NilRaw | StackRaw(stack: Stack) | FleetRaw(fleet: Fleet) | ImageBuilderRaw(imageBuilder: ImageBuilder)

  /** The error the polling engine returns (a timeout, an unexpected state,
      ...), with the "last error" context a waiter may attach to it. */
  class WaitError {
    const message: string
    var lastError: Option<seq<string>>

    constructor (message: string)
      ensures this.message == message && lastError == None
    {
      this.message := message;
      lastError := None;
    }
  }

  /** `fmt.Errorf("%s: %s", aws.StringValue(code), aws.StringValue(message))`. */
  function FormatEntry(e: ErrorEntry): string {
    StringValue(e.errorCode) + ": " + StringValue(e.errorMessage)
  }

  /** The aggregated error's entries: one "code: message" per failure entry,
      in the original order. */
  function FailureReasons(entries: seq<ErrorEntry>): (r: seq<string>)
    ensures |r| == |entries|
  {
    seq(|entries|, i requires 0 <= i < |entries| => FormatEntry(entries[i]))
  }

  /** Aggregation keeps the order: the entries of a concatenation are the
      entries of its parts, one after the other. */
  lemma FailureReasonsAppend(a: seq<ErrorEntry>, b: seq<ErrorEntry>)
    ensures FailureReasons(a + b) == FailureReasons(a) + FailureReasons(b)
  {
    var l, r := FailureReasons(a + b), FailureReasons(a) + FailureReasons(b);
    forall i | 0 <= i < |l| ensures l[i] == r[i] {
      if i < |a| {
        assert (a + b)[i] == a[i];
      } else {
        assert (a + b)[i] == b[i - |a|];
      }
    }
  }

  /** Two failure entries A and B show up as "A: fail A" then "B: fail B";
      a nil code or message reads as the empty string. */
  lemma FailureReasonsExample()
    ensures FailureReasons([ErrorEntry(Some("A"), Some("fail A")), ErrorEntry(Some("B"), Some("fail B"))])
         == ["A: fail A", "B: fail B"]
    ensures FailureReasons([ErrorEntry(None, Some("gone"))]) == [": gone"]
  {
    var a, b := ErrorEntry(Some("A"), Some("fail A")), ErrorEntry(Some("B"), Some("fail B"));
    assert FormatEntry(a) == "A: fail A";
    assert FormatEntry(b) == "B: fail B";
    assert FormatEntry(ErrorEntry(None, Some("gone"))) == ": gone";
  }

  /** The loop that appends one formatted error per failure entry to the
      accumulating multi-error. */
  method AggregateErrors(entries: seq<ErrorEntry>) returns (errs: seq<string>)
    ensures |errs| == |entries|
    ensures forall i :: 0 <= i < |entries| ==>
      errs[i] == StringValue(entries[i].errorCode) + ": " + StringValue(entries[i].errorMessage)
  {
    errs := [];
    for i := 0 to |entries|
      invariant |errs| == i
      invariant forall j :: 0 <= j < i ==> errs[j] == FormatEntry(entries[j])
    {
      errs := errs + [FormatEntry(entries[i])];
    }
  }

  /** `tfresource.SetLastError(err, lastErr)`: records the aggregated error
      on a non-nil primary error; a nil error is left as it is. */
  method SetLastError(err: WaitError?, lastErr: seq<string>)
    modifies err
    ensures err != null ==> err.lastError == Some(lastErr)
  {
    if err != null {
      err.lastError := Some(lastErr);
    }
  }

  /** What the stack waiter attaches as "last error": the stack's failure
      reasons when the engine returned a stack whose error list is not empty,
      and nothing otherwise. */
  function StackLastError(outputRaw: Raw): (r: Option<seq<string>>)
    ensures r.Some? <==> outputRaw.StackRaw? && |outputRaw.stack.stackErrors| > 0
    ensures r.Some? ==> (|r.value| == |outputRaw.stack.stackErrors| &&
      forall i :: 0 <= i < |r.value| ==> r.value[i] == FormatEntry(outputRaw.stack.stackErrors[i]))
  {
    if outputRaw.StackRaw? && |outputRaw.stack.stackErrors| > 0 then Some(FailureReasons(outputRaw.stack.stackErrors))
    else None
  }

  /** What the fleet waiters attach as "last error": the fleet's failure
      reasons when the engine returned a fleet whose error list is not empty,
      whatever its state, and nothing otherwise. */
  function FleetLastError(outputRaw: Raw): (r: Option<seq<string>>)
    ensures r.Some? <==> outputRaw.FleetRaw? && |outputRaw.fleet.fleetErrors| > 0
    ensures r.Some? ==> (|r.value| == |outputRaw.fleet.fleetErrors| &&
      forall i :: 0 <= i < |r.value| ==> r.value[i] == FormatEntry(outputRaw.fleet.fleetErrors[i]))
  {
    if outputRaw.FleetRaw? && |outputRaw.fleet.fleetErrors| > 0 then Some(FailureReasons(outputRaw.fleet.fleetErrors))
    else None
  }

  /** What the image builder waiters attach as "last error": the builder's
      failure reasons only when the engine returned an image builder whose
      state is FAILED and whose error list is not empty. */
  function ImageBuilderLastError(outputRaw: Raw): (r: Option<seq<string>>)
    ensures r.Some? <==>
      outputRaw.ImageBuilderRaw? && StringValue(outputRaw.imageBuilder.state) == "FAILED" &&
      |outputRaw.imageBuilder.imageBuilderErrors| > 0
    ensures r.Some? ==> (|r.value| == |outputRaw.imageBuilder.imageBuilderErrors| &&
      forall i :: 0 <= i < |r.value| ==> r.value[i] == FormatEntry(outputRaw.imageBuilder.imageBuilderErrors[i]))
  {
    match outputRaw
    case ImageBuilderRaw(ib) =>
      if StringValue(ib.state) == ImageBuilderStateFailed && |ib.imageBuilderErrors| > 0
      then Some(FailureReasons(ib.imageBuilderErrors))
      else None
    case _ => None
  }

  /** The object a stack waiter hands back: the stack when the engine
      returned one, nil otherwise. */
  function AsStack(outputRaw: Raw): Option<Stack> {
    if outputRaw.StackRaw? then Some(outputRaw.stack) else None
  }

  function AsFleet(outputRaw: Raw): Option<Fleet> {
    if outputRaw.FleetRaw? then Some(outputRaw.fleet) else None
  }

  function AsImageBuilder(outputRaw: Raw): Option<ImageBuilder> {
    if outputRaw.ImageBuilderRaw? then Some(outputRaw.imageBuilder) else None
  }

  /** The post-processing common to every waiter: attach `lastErr`, when
      there is one, to the primary error. */
  method AttachLastError(err: WaitError?, entries: seq<ErrorEntry>, attach: bool)
    modifies err
    ensures err != null ==> err.lastError == if attach then Some(FailureReasons(entries)) else old(err.lastError)
  {
    if attach {
      var errs := AggregateErrors(entries);
      assert errs == FailureReasons(entries);
      SetLastError(err, errs);
    }
  }

  /** `waitStackStateDeleted`, from the point where the engine, run with
      `StackStateDeletedConf`, returned `(outputRaw, err)`. */
  method WaitStackStateDeleted(outputRaw: Raw, err: WaitError?) returns (output: Option<Stack>, e: WaitError?)
    modifies err
    ensures e == err && output == AsStack(outputRaw)
    ensures err != null ==> err.lastError == if StackLastError(outputRaw).Some? then StackLastError(outputRaw) else old(err.lastError)
  {
    if outputRaw.StackRaw? {
      var stack := outputRaw.stack;
      AttachLastError(err, stack.stackErrors, |stack.stackErrors| > 0);
      return Some(stack), err;
    }
    return None, err;
  }

  /** `waitFleetStateRunning`, run with `FleetStateRunningConf`. */
  method WaitFleetStateRunning(outputRaw: Raw, err: WaitError?) returns (output: Option<Fleet>, e: WaitError?)
    modifies err
    ensures e == err && output == AsFleet(outputRaw)
    ensures err != null ==> err.lastError == if FleetLastError(outputRaw).Some? then FleetLastError(outputRaw) else old(err.lastError)
  {
    output, e := FleetPostProcess(outputRaw, err);
  }

  /** `waitFleetStateStopped`, run with `FleetStateStoppedConf`. */
  method WaitFleetStateStopped(outputRaw: Raw, err: WaitError?) returns (output: Option<Fleet>, e: WaitError?)
    modifies err
    ensures e == err && output == AsFleet(outputRaw)
    ensures err != null ==> err.lastError == if FleetLastError(outputRaw).Some? then FleetLastError(outputRaw) else old(err.lastError)
  {
    output, e := FleetPostProcess(outputRaw, err);
  }

  /** The post-processing both fleet waiters share. */
  method FleetPostProcess(outputRaw: Raw, err: WaitError?) returns (output: Option<Fleet>, e: WaitError?)
    modifies err
    ensures e == err && output == AsFleet(outputRaw)
    ensures err != null ==> err.lastError == if FleetLastError(outputRaw).Some? then FleetLastError(outputRaw) else old(err.lastError)
  {
    if outputRaw.FleetRaw? {
      var fleet := outputRaw.fleet;
      AttachLastError(err, fleet.fleetErrors, |fleet.fleetErrors| > 0);
      return Some(fleet), err;
    }
    return None, err;
  }

  /** `waitImageBuilderStateRunning`, run with `ImageBuilderStateRunningConf`. */
  method WaitImageBuilderStateRunning(outputRaw: Raw, err: WaitError?) returns (output: Option<ImageBuilder>, e: WaitError?)
    modifies err
    ensures e == err && output == AsImageBuilder(outputRaw)
    ensures err != null ==> (err.lastError ==
      if ImageBuilderLastError(outputRaw).Some? then ImageBuilderLastError(outputRaw) else old(err.lastError))
  {
    output, e := ImageBuilderPostProcess(outputRaw, err);
  }

  /** `waitImageBuilderStateDeleted`, run with `ImageBuilderStateDeletedConf`. */
  method WaitImageBuilderStateDeleted(outputRaw: Raw, err: WaitError?) returns (output: Option<ImageBuilder>, e: WaitError?)
    modifies err
    ensures e == err && output == AsImageBuilder(outputRaw)
    ensures err != null ==> (err.lastError ==
      if ImageBuilderLastError(outputRaw).Some? then ImageBuilderLastError(outputRaw) else old(err.lastError))
  {
    output, e := ImageBuilderPostProcess(outputRaw, err);
  }

  /** The post-processing both image builder waiters share. */
  method ImageBuilderPostProcess(outputRaw: Raw, err: WaitError?) returns (output: Option<ImageBuilder>, e: WaitError?)
    modifies err
    ensures e == err && output == AsImageBuilder(outputRaw)
    ensures err != null ==> (err.lastError ==
      if ImageBuilderLastError(outputRaw).Some? then ImageBuilderLastError(outputRaw) else old(err.lastError))
  {
    if outputRaw.ImageBuilderRaw? {
      var ib := outputRaw.imageBuilder;
      var state, errors := StringValue(ib.state), ib.imageBuilderErrors;
      AttachLastError(err, errors, state == ImageBuilderStateFailed && |errors| > 0);
      return Some(ib), err;
    }
    return None, err;
  }
}
