/** The transaction-status state machine of the debug page's counter
    controls, stated on values. Each function is one discrete event of the
    page: a button handler, the settling of a work unit, the firing of a
    reset timer, or a read of the counter. The class in module
    DebugContracts performs the same events in place and is specified by
    these functions. */
module TxLifecycle {
  import opened NumericInput

  datatype Option<T> = None | Some(value: T)

  /** The status cell's phase; `Idle` is the page's "none". */
  datatype Phase = Idle | Pending | Success | Error

  /** The `txStatus` cell: a phase, a message, and an optional operation tag. */
  datatype TxStatus = TxStatus(status: Phase, message: string, operation: Option<string>)

  /** What the reset timer writes, and the initial status. */
  const Cleared := TxStatus(Idle, "", None)
  const Fallback := "Transaction failed"
  const InvalidNumber := "Please enter a valid number"

  /** A work unit that has been started and has not settled: the success
      message it will report and the operation tag it was started with. */
  datatype Unit = Unit(successMessage: string, tag: string)

  /** The result of one read of the counter from the remote service. */
  datatype Fetch = Fetched(value: int) | FetchFailed

  /** How a work unit settles. A confirmed unit carries the result of the
      counter read it performs after the confirmation wait; a failed unit
      carries the `reason` and `message` fields of what it threw, the empty
      string standing for an absent field. */
  datatype Outcome = Confirmed(refresh: Fetch) | Failed(reason: string, message: string)

  /** The page's state: the status cell, the counter cell (`None` while
      unknown), the work units in flight in the order they were started, and
      the number of reset timers that have been scheduled and not fired. */
  datatype State = State(tx: TxStatus, number: Option<int>, inFlight: seq<Unit>, resets: nat)

  const Initial := State(Cleared, None, [], 0)

  /** The tag invariant: an operation tag is present exactly while pending. */
  predicate TagInvariant(tx: TxStatus) {
    tx.operation.Some? <==> tx.status == Pending
  }

  /** JavaScript's `!operation` on an optional string: undefined or empty. */
  predicate TagAbsent(operation: Option<string>) {
    operation.None? || operation.value == ""
  }

  /** Whether the control for `op` is disabled. */
  function IsOperationDisabled(tx: TxStatus, op: string): (r: bool)
    ensures r ==> tx.status == Pending
    ensures tx.status == Pending && tx.operation == Some(op) ==> r
    ensures tx.status == Pending && tx.operation == None ==> r
  {
    tx.status == Pending && (TagAbsent(tx.operation) || tx.operation.value == op)
  }

  /** Under the tag invariant the control for `op` is disabled exactly when
      a unit is pending whose tag is empty or equal to `op`. */
  lemma DisabledExactly(tx: TxStatus, op: string)
    requires TagInvariant(tx)
    ensures IsOperationDisabled(tx, op) <==>
              tx.status == Pending && (tx.operation.value == "" || tx.operation.value == op)
  {
  }

  /** The failure message: `reason` if non-empty, else `message` if
      non-empty, else the fixed fallback. */
  function ErrorMessage(reason: string, message: string): (r: string)
    ensures r != ""
    ensures reason != "" ==> r == reason
    ensures reason == "" && message != "" ==> r == message
    ensures reason == "" && message == "" ==> r == Fallback
  {
    if reason != "" then reason else if message != "" then message else Fallback
  }

  /** Three failures: one with a reason, one with only a message, one with neither. */
  lemma ErrorMessageExamples()
    ensures ErrorMessage("insufficient funds", "execution reverted") == "insufficient funds"
    ensures ErrorMessage("", "network down") == "network down"
    ensures ErrorMessage("", "") == "Transaction failed"
  {
  }

  /** The effect of one counter read on the counter cell: a successful read
      replaces the value, a failed read is swallowed and leaves it as it was. */
  function Refresh(number: Option<int>, f: Fetch): (r: Option<int>)
    ensures f.Fetched? ==> r == Some(f.value)
    ensures f.FetchFailed? ==> r == number
  {
    match f
    case Fetched(v) => Some(v)
    case FetchFailed => number
  }

  /** `handleTransaction` up to the first suspension point: dropped while
      pending, otherwise moves to pending with the caller's message and tag
      and starts one work unit. No reset is scheduled at this point. */
  function Submit(s: State, pendingMessage: string, successMessage: string, tag: string): (r: State)
    ensures s.tx.status == Pending ==> r == s
    ensures s.tx.status != Pending ==>
              r.tx == TxStatus(Pending, pendingMessage, Some(tag)) &&
              r.inFlight == s.inFlight + [Unit(successMessage, tag)]
    ensures r.number == s.number && r.resets == s.resets
    ensures TagInvariant(s.tx) ==> TagInvariant(r.tx)
  {
    if s.tx.status == Pending then s
    else s.(tx := TxStatus(Pending, pendingMessage, Some(tag)),
            inFlight := s.inFlight + [Unit(successMessage, tag)])
  }

  /** `handleTransaction` after the work unit `i` resumes: success with the
      unit's own message (after its counter read), or error with the
      prioritised failure message; either way the tag is dropped, the unit
      leaves the in-flight list and exactly one reset is scheduled. */
  function Settle(s: State, i: nat, o: Outcome): (r: State)
    requires i < |s.inFlight|
    ensures r.inFlight == s.inFlight[..i] + s.inFlight[i + 1..]
    ensures |r.inFlight| == |s.inFlight| - 1
    ensures r.resets == s.resets + 1
    ensures o.Confirmed? ==>
              r.tx == TxStatus(Success, s.inFlight[i].successMessage, None) &&
              r.number == Refresh(s.number, o.refresh)
    ensures o.Failed? ==>
              r.tx == TxStatus(Error, ErrorMessage(o.reason, o.message), None) &&
              r.number == s.number
    ensures TagInvariant(r.tx)
  {
    var rest := s.inFlight[..i] + s.inFlight[i + 1..];
    match o
    case Confirmed(f) =>
      State(TxStatus(Success, s.inFlight[i].successMessage, None), Refresh(s.number, f), rest, s.resets + 1)
    case Failed(reason, message) =>
      State(TxStatus(Error, ErrorMessage(reason, message), None), s.number, rest, s.resets + 1)
  }

  /** A reset timer fires: it clears the status without looking at it, so a
      stale timer also clears the pending status of a later unit. */
  function FireReset(s: State): (r: State)
    requires s.resets > 0
    ensures r.tx == Cleared
    ensures r.resets == s.resets - 1
    ensures r.inFlight == s.inFlight && r.number == s.number
  {
    s.(tx := Cleared, resets := s.resets - 1)
  }

  /** The validation shared by the set, add and multiply handlers: invalid
      input writes an error status, whatever the current phase, and neither
      starts a unit nor schedules a reset; valid input is submitted. */
  function Dispatch(s: State, input: string, pendingMessage: string, successMessage: string, tag: string): (r: State)
    ensures !ValidNumberInput(input) ==>
              r == s.(tx := TxStatus(Error, InvalidNumber, None))
    ensures ValidNumberInput(input) ==> r == Submit(s, pendingMessage, successMessage, tag)
    ensures TagInvariant(s.tx) ==> TagInvariant(r.tx)
  {
    if !ValidNumberInput(input) then s.(tx := TxStatus(Error, InvalidNumber, None))
    else Submit(s, pendingMessage, successMessage, tag)
  }

  /** The success messages of the three numeric handlers quote the input
      text, which can be read back from the message. */
  function SetNumberSuccess(input: string): (r: string)
    ensures |r| == |input| + 28 && r[14..|r| - 14] == input
  {
    "Number set to " + input + " successfully!"
  }

  function AddNumberSuccess(input: string): (r: string)
    ensures |r| == |input| + 20 && r[6..|r| - 14] == input
  {
    "Added " + input + " successfully!"
  }

  function MulNumberSuccess(input: string): (r: string)
    ensures |r| == |input| + 28 && r[14..|r| - 14] == input
  {
    "Multiplied by " + input + " successfully!"
  }

  /** The set handler: invalid input writes the validation error and
      nothing else; valid input is dropped while pending and otherwise
      starts a "setNumber" unit that will report the input back. */
  function SetANumber(s: State, input: string): (r: State)
    ensures !ValidNumberInput(input) ==>
              r.tx == TxStatus(Error, InvalidNumber, None) && r.inFlight == s.inFlight && r.resets == s.resets
    ensures ValidNumberInput(input) && s.tx.status == Pending ==> r == s
    ensures ValidNumberInput(input) && s.tx.status != Pending ==>
              r.tx == TxStatus(Pending, "Setting number...", Some("setNumber")) &&
              r.inFlight == s.inFlight + [Unit(SetNumberSuccess(input), "setNumber")] && r.resets == s.resets
    ensures r.number == s.number
  {
    Dispatch(s, input, "Setting number...", SetNumberSuccess(input), "setNumber")
  }

  /** The add handler, as the set handler with its own messages and tag. */
  function AddNumber(s: State, input: string): (r: State)
    ensures !ValidNumberInput(input) ==>
              r.tx == TxStatus(Error, InvalidNumber, None) && r.inFlight == s.inFlight && r.resets == s.resets
    ensures ValidNumberInput(input) && s.tx.status == Pending ==> r == s
    ensures ValidNumberInput(input) && s.tx.status != Pending ==>
              r.tx == TxStatus(Pending, "Adding number...", Some("addNumber")) &&
              r.inFlight == s.inFlight + [Unit(AddNumberSuccess(input), "addNumber")] && r.resets == s.resets
    ensures r.number == s.number
  {
    Dispatch(s, input, "Adding number...", AddNumberSuccess(input), "addNumber")
  }

  /** The multiply handler, as the set handler with its own messages and tag. */
  function MulNumber(s: State, input: string): (r: State)
    ensures !ValidNumberInput(input) ==>
              r.tx == TxStatus(Error, InvalidNumber, None) && r.inFlight == s.inFlight && r.resets == s.resets
    ensures ValidNumberInput(input) && s.tx.status == Pending ==> r == s
    ensures ValidNumberInput(input) && s.tx.status != Pending ==>
              r.tx == TxStatus(Pending, "Multiplying number...", Some("mulNumber")) &&
              r.inFlight == s.inFlight + [Unit(MulNumberSuccess(input), "mulNumber")] && r.resets == s.resets
    ensures r.number == s.number
  {
    Dispatch(s, input, "Multiplying number...", MulNumberSuccess(input), "mulNumber")
  }

  /** The increment handler: no validation, so it never writes an error;
      dropped while pending, otherwise it starts an "increment" unit. */
  function Increment(s: State): (r: State)
    ensures s.tx.status == Pending ==> r == s
    ensures s.tx.status != Pending ==>
              r.tx == TxStatus(Pending, "Incrementing number...", Some("increment")) &&
              r.inFlight == s.inFlight + [Unit("Number incremented successfully!", "increment")]
    ensures r.tx.status != Error || s.tx.status == Error
    ensures r.number == s.number && r.resets == s.resets
  {
    Submit(s, "Incrementing number...", "Number incremented successfully!", "increment")
  }

  /** The events that can happen to the page. */
  datatype Event =
    | SetClicked(input: string)
    | AddClicked(input: string)
    | MulClicked(input: string)
    | IncrementClicked
    | Settled(unit: nat, outcome: Outcome)
    | ResetFired
    | Refreshed(result: Fetch)

  /** A unit can settle only while in flight, a timer can fire only while
      scheduled; the other events can happen at any time. */
  predicate Enabled(s: State, e: Event) {
    match e
    case Settled(i, _) => i < |s.inFlight|
    case ResetFired => s.resets > 0
    case _ => true
  }

  function Step(s: State, e: Event): (r: State)
    requires Enabled(s, e)
    ensures TagInvariant(s.tx) ==> TagInvariant(r.tx)
  {
    match e
    case SetClicked(input) => SetANumber(s, input)
    case AddClicked(input) => AddNumber(s, input)
    case MulClicked(input) => MulNumber(s, input)
    case IncrementClicked => Increment(s)
    case Settled(i, o) => Settle(s, i, o)
    case ResetFired => FireReset(s)
    case Refreshed(f) => s.(number := Refresh(s.number, f))
  }

  /** The events of `evs` can happen one after the other from `s`. */
  predicate Trace(s: State, evs: seq<Event>)
    decreases |evs|
  {
    evs == [] || (Enabled(s, evs[0]) && Trace(Step(s, evs[0]), evs[1..]))
  }

  function Run(s: State, evs: seq<Event>): State
    requires Trace(s, evs)
    decreases |evs|
  {
    if evs == [] then s else Run(Step(s, evs[0]), evs[1..])
  }

  /** Whether `e` is a submission that passes validation and the guard. */
  predicate Accepts(s: State, e: Event) {
    s.tx.status != Pending &&
    match e
    case SetClicked(input) => ValidNumberInput(input)
    case AddClicked(input) => ValidNumberInput(input)
    case MulClicked(input) => ValidNumberInput(input)
    case IncrementClicked => true
    case _ => false
  }

  /** Submissions accepted along a trace. */
  function AcceptedIn(s: State, evs: seq<Event>): nat
    requires Trace(s, evs)
    decreases |evs|
  {
    if evs == [] then 0
    else (if Accepts(s, evs[0]) then 1 else 0) + AcceptedIn(Step(s, evs[0]), evs[1..])
  }

  function SettledIn(evs: seq<Event>): nat {
    if evs == [] then 0 else (if evs[0].Settled? then 1 else 0) + SettledIn(evs[1..])
  }

  function FiredIn(evs: seq<Event>): nat {
    if evs == [] then 0 else (if evs[0].ResetFired? then 1 else 0) + FiredIn(evs[1..])
  }

  /** One step changes the in-flight list by one accepted submission or one
      settling, and the scheduled resets by one settling or one firing. */
  lemma StepAccounting(s: State, e: Event)
    requires Enabled(s, e)
    ensures |Step(s, e).inFlight| + (if e.Settled? then 1 else 0) ==
              |s.inFlight| + (if Accepts(s, e) then 1 else 0)
    ensures Step(s, e).resets + (if e.ResetFired? then 1 else 0) ==
              s.resets + (if e.Settled? then 1 else 0)
  {
  }

  /** Along every trace, each accepted submission either is still in flight
      or has settled, and each settling scheduled exactly one reset, which
      either is still outstanding or has fired. */
  lemma {:induction false} RunAccounting(s: State, evs: seq<Event>)
    requires Trace(s, evs)
    ensures |Run(s, evs).inFlight| + SettledIn(evs) == |s.inFlight| + AcceptedIn(s, evs)
    ensures Run(s, evs).resets + FiredIn(evs) == s.resets + SettledIn(evs)
    decreases |evs|
  {
    if evs != [] {
      StepAccounting(s, evs[0]);
      RunAccounting(Step(s, evs[0]), evs[1..]);
    }
  }

  /** The tag invariant holds in every state a trace reaches from a state
      that keeps it, and so in every state reachable from the initial one. */
  lemma {:induction false} RunKeepsTagInvariant(s: State, evs: seq<Event>)
    requires TagInvariant(s.tx) && Trace(s, evs)
    ensures TagInvariant(Run(s, evs).tx)
    decreases |evs|
  {
    if evs != [] {
      RunKeepsTagInvariant(Step(s, evs[0]), evs[1..]);
    }
  }

  /** A timer scheduled by an earlier unit clears the status of a later
      pending unit, which is still in flight; the guard then admits another
      submission, so two units are in flight at once. */
  lemma StaleResetAdmitsOverlap(s: State)
    requires s.tx.status == Pending && s.resets > 0
    ensures FireReset(s).inFlight == s.inFlight
    ensures !IsOperationDisabled(FireReset(s).tx, "increment")
    ensures |Increment(FireReset(s)).inFlight| == |s.inFlight| + 1
  {
  }

  /** The scenario from the initial state: increment, settle, increment
      again before the timer fires, let the timer fire, increment a third
      time. Two units are then in flight and the status is pending. */
  lemma StaleResetScenario()
    ensures var evs := [IncrementClicked, Settled(0, Confirmed(Fetched(1))), IncrementClicked,
                        ResetFired, IncrementClicked];
            Trace(Initial, evs) &&
            |Run(Initial, evs).inFlight| == 2 &&
            Run(Initial, evs).tx.status == Pending &&
            Run(Initial, evs).resets == 0
  {
    var evs := [IncrementClicked, Settled(0, Confirmed(Fetched(1))), IncrementClicked,
                ResetFired, IncrementClicked];
    var s1 := Increment(Initial);
    var s2 := Settle(s1, 0, Confirmed(Fetched(1)));
    var s3 := Increment(s2);
    var s4 := FireReset(s3);
    var s5 := Increment(s4);
    assert Step(Initial, evs[0]) == s1 && |s1.inFlight| == 1;
    assert Step(s1, evs[1]) == s2 && s2.tx.status == Success && s2.resets == 1;
    assert Step(s2, evs[2]) == s3 && s3.tx.status == Pending && |s3.inFlight| == 1;
    assert Step(s3, evs[3]) == s4 && s4.tx == Cleared;
    assert Step(s4, evs[4]) == s5 && |s5.inFlight| == 2;
    assert evs[5..] == [] && evs[4..][1..] == evs[5..];
    assert evs[3..][1..] == evs[4..] && evs[2..][1..] == evs[3..];
    assert evs[1..][1..] == evs[2..];
    assert Trace(s5, evs[5..]) && Run(s5, evs[5..]) == s5;
    assert Trace(s4, evs[4..]) && Run(s4, evs[4..]) == s5;
    assert Trace(s3, evs[3..]) && Run(s3, evs[3..]) == s5;
    assert Trace(s2, evs[2..]) && Run(s2, evs[2..]) == s5;
    assert Trace(s1, evs[1..]) && Run(s1, evs[1..]) == s5;
  }

  /** Invalid input for set, add or multiply while a unit is pending
      overwrites the pending status with the validation error: the unit is
      still in flight, no control is disabled any more, and the next
      submission is accepted. */
  lemma RejectionReopensGuard(s: State, input: string, op: string)
    requires s.tx.status == Pending && !ValidNumberInput(input)
    ensures SetANumber(s, input).inFlight == s.inFlight
    ensures SetANumber(s, input).tx == TxStatus(Error, InvalidNumber, None)
    ensures !IsOperationDisabled(SetANumber(s, input).tx, op)
    ensures |Increment(SetANumber(s, input)).inFlight| == |s.inFlight| + 1
  {
  }
}
