/** The debug page component with its two state cells, `txStatus` and
    `number`, updated in place. The asynchronous code of the page becomes
    discrete events: starting a work unit, settling it, firing a reset
    timer, and reading the counter. The work units still in flight and the
    reset timers still scheduled are kept beside the status, since the
    status alone does not say how many of either exist. */
module DebugContracts {
  import opened NumericInput
  import opened TxLifecycle

  class Page {
    var tx: TxStatus
    var number: Option<int>
    var inFlight: seq<Unit>
    var resets: nat

    /** The page as a value, the state the functions of TxLifecycle describe. */
    ghost function Model(): State
      reads this
    {
      State(tx, number, inFlight, resets)
    }

    ghost predicate Valid()
      reads this
    {
      TagInvariant(tx)
    }

    /** `isOperationDisabled` on the page's status: the control for `op` is
        disabled exactly while a unit is pending whose tag is empty or `op`. */
    function IsOperationDisabled(op: string): (disabled: bool)
      requires Valid()
      reads this
      ensures disabled <==> tx.status == Pending && (tx.operation.value == "" || tx.operation.value == op)
    {
      DisabledExactly(tx, op);
      TxLifecycle.IsOperationDisabled(tx, op)
    }

    /** A fresh page: status "none" with an empty message, counter unknown. */
    constructor ()
      ensures Valid() && Model() == Initial
    {
      tx := Cleared;
      number := None;
      inFlight := [];
      resets := 0;
    }

    /** `fetchNumber`: a successful read replaces the counter, a failed read
        is swallowed. The status is never touched. */
    method FetchNumber(f: Fetch)
      modifies this`number
      ensures number == Refresh(old(number), f)
    {
      match f {
        case Fetched(v) => number := Some(v);
        case FetchFailed =>
      }
    }

    /** `handleTransaction` up to the first suspension point. */
    method HandleTransaction(pendingMessage: string, successMessage: string, operationType: string)
      returns (accepted: bool)
      requires Valid()
      modifies this
      ensures Valid()
      ensures accepted == (old(tx.status) != Pending)
      ensures Model() == Submit(old(Model()), pendingMessage, successMessage, operationType)
    {
      if tx.status == Pending {
        return false;
      }
      tx := TxStatus(Pending, pendingMessage, Some(operationType));
      inFlight := inFlight + [Unit(successMessage, operationType)];
      accepted := true;
    }

    /** `handleTransaction` after work unit `i` resumes with outcome `o`. */
    method Settle(i: nat, o: Outcome)
      requires Valid() && i < |inFlight|
      modifies this
      ensures Valid()
      ensures Model() == TxLifecycle.Settle(old(Model()), i, o)
    {
      var u := inFlight[i];
      match o {
        case Confirmed(f) =>
          FetchNumber(f);
          tx := TxStatus(Success, u.successMessage, None);
        case Failed(reason, message) =>
          tx := TxStatus(Error, ErrorMessage(reason, message), None);
      }
      inFlight := inFlight[..i] + inFlight[i + 1..];
      resets := resets + 1;
    }

    /** One scheduled reset timer fires. */
    method FireReset()
      requires Valid() && resets > 0
      modifies this
      ensures Valid()
      ensures Model() == TxLifecycle.FireReset(old(Model()))
    {
      tx := Cleared;
      resets := resets - 1;
    }

    /** The validation the set, add and multiply handlers share. */
    method Dispatch(input: string, pendingMessage: string, successMessage: string, operationType: string)
      requires Valid()
      modifies this
      ensures Valid()
      ensures Model() == TxLifecycle.Dispatch(old(Model()), input, pendingMessage, successMessage, operationType)
    {
      if !ValidNumberInput(input) {
        tx := TxStatus(Error, InvalidNumber, None);
        return;
      }
      var _ := HandleTransaction(pendingMessage, successMessage, operationType);
    }

    method SetANumber(inputNumber: string)
      requires Valid()
      modifies this
      ensures Valid()
      ensures Model() == TxLifecycle.SetANumber(old(Model()), inputNumber)
    {
      Dispatch(inputNumber, "Setting number...", SetNumberSuccess(inputNumber), "setNumber");
    }

    method AddNumber(inputNumber: string)
      requires Valid()
      modifies this
      ensures Valid()
      ensures Model() == TxLifecycle.AddNumber(old(Model()), inputNumber)
    {
      Dispatch(inputNumber, "Adding number...", AddNumberSuccess(inputNumber), "addNumber");
    }

    method MulNumber(inputNumber: string)
      requires Valid()
      modifies this
      ensures Valid()
      ensures Model() == TxLifecycle.MulNumber(old(Model()), inputNumber)
    {
      Dispatch(inputNumber, "Multiplying number...", MulNumberSuccess(inputNumber), "mulNumber");
    }

    /** `increment` submits without validating any input. */
    method Increment()
      requires Valid()
      modifies this
      ensures Valid()
      ensures Model() == TxLifecycle.Increment(old(Model()))
    {
      var _ := HandleTransaction("Incrementing number...", "Number incremented successfully!", "increment");
    }
  }

  /** A client of the page: a unit settles, a second increment starts before
      the first unit's timer fires, the timer then clears the second unit's
      pending status, and a third increment is accepted while the second
      unit is still in flight. */
  method StaleTimerRace() returns (status: Phase, unitsInFlight: nat, disabled: bool)
    ensures status == Pending && unitsInFlight == 2 && !disabled
  {
    var page := new Page();
    page.Increment();
    page.Settle(0, Confirmed(Fetched(1)));
    assert page.tx.status == Success && page.resets == 1;
    page.Increment();
    assert page.tx == TxStatus(Pending, "Incrementing number...", Some("increment"));
    page.FireReset();
    disabled := page.IsOperationDisabled("increment");
    page.Increment();
    status, unitsInFlight := page.tx.status, |page.inFlight|;
  }
}
