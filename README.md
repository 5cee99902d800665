# Transaction-status state machine of the counter debug page

The debug page (`DebugContracts.tsx`) drives a counter contract through four
buttons: set, add, multiply and increment. It shows the outcome in one
status cell, `txStatus`. That cell holds a phase (`none`, `pending`,
`success` or `error`), a message, and an optional operation tag. Beside it,
the page keeps the last counter value it read, `number`, which is unknown
at first.

This project models the page's logic:

- `handleTransaction`: a guard against submitting while pending, the start
  of a work unit, the settle to success or error, and the one reset timer
  it schedules.
- The input validation of the set, add and multiply handlers. Increment
  has no validation.
- `isOperationDisabled`.
- The effect of `fetchNumber` on `number`.

The asynchronous code becomes discrete events:

- a button click;
- the settling of an in-flight work unit, with its outcome;
- the firing of a scheduled reset timer;
- a read of the counter.

The work units in flight and the timers still scheduled are kept as state of
their own, beside the status.

Modules:

- `NumericInput` (`numeric_input.dfy`) is the handlers' validity test
  `!input || isNaN(Number(input))`. It states JavaScript's string-to-number
  grammar: white-space trimming, signed decimals with fraction and
  exponent, `Infinity`, and `0b`/`0o`/`0x` integers.
- `TxLifecycle` (`tx_lifecycle.dfy`) is the state machine on values. It has
  one function per event, a step relation over traces, and the lemmas.
- `DebugContracts` (`debug_contracts.dfy`) is the page as a class, `Page`.
  Its fields are updated in place. Each method is proved to produce exactly
  the state the matching `TxLifecycle` function describes, and to keep the
  tag invariant.

The reset at line 58 writes `none` without looking at the status. A timer
scheduled by an earlier unit therefore clears the pending status of a later
unit that is still running. The guard at line 43 then accepts another
submission, so two units are in flight. `StaleResetAdmitsOverlap`,
`StaleResetScenario` and `Page`'s client `StaleTimerRace` prove this.
`RejectionReopensGuard` proves a second way to the same state: invalid
input while pending overwrites the pending status with the validation
error. Nothing in the model claims "at most one in flight".

## Model

| member | source | states |
|---|---|---|
| NumericInput.TrimStart | packages/nextjs/app/debug/_components/DebugContracts.tsx:63 | the result is a suffix of the input; everything dropped is JavaScript white space; the result does not start with white space |
| NumericInput.TrimEnd | packages/nextjs/app/debug/_components/DebugContracts.tsx:63 | the result is a prefix of the input; everything dropped is white space; the result does not end with white space |
| NumericInput.Trim | packages/nextjs/app/debug/_components/DebugContracts.tsx:63 | the text `Number` parses is a slice of the input with only white space before and after it, and it neither starts nor ends with white space |
| NumericInput.FirstOf | packages/nextjs/app/debug/_components/DebugContracts.tsx:63 | returns the index of the first character from the set, or the length when there is none; used to split a literal at its exponent marker and decimal point |
| NumericInput.TrimUnpadded | packages/nextjs/app/debug/_components/DebugContracts.tsx:63 | text with no white space at either end is parsed as it is |
| NumericInput.EmptyAndBlankInput | packages/nextjs/app/debug/_components/DebugContracts.tsx:63 | the empty input is rejected; an input of only white space is accepted, because `Number` reads it as 0 |
| NumericInput.AcceptsInteger | packages/nextjs/app/debug/_components/DebugContracts.tsx:63 | "42" passes validation |
| NumericInput.AcceptsExponent | packages/nextjs/app/debug/_components/DebugContracts.tsx:63 | "-3.5e2" passes validation |
| NumericInput.AcceptsHex | packages/nextjs/app/debug/_components/DebugContracts.tsx:63 | "0x1F" passes validation |
| NumericInput.RejectsText | packages/nextjs/app/debug/_components/DebugContracts.tsx:63 | "abc" is rejected |
| NumericInput.RejectsBarePrefix | packages/nextjs/app/debug/_components/DebugContracts.tsx:63 | "0x" with no digits is rejected |
| NumericInput.RejectsTwoPoints | packages/nextjs/app/debug/_components/DebugContracts.tsx:63 | "1.2.3" is rejected |
| NumericInput.NumberIsNaN | packages/nextjs/app/debug/_components/DebugContracts.tsx:63 | `isNaN(Number(s))`: text of white space alone is not NaN; text that is not NaN starts, after its white space, with a sign, a digit, a point or the `I` of `Infinity` |
| NumericInput.ValidNumberInput | packages/nextjs/app/debug/_components/DebugContracts.tsx:63 | the negation of the rejection test "empty, or `Number` gives NaN": the empty input is invalid; a non-empty input of white space alone is valid; a valid input starts, after its white space, with a sign, a digit, a point or `I` |
| NumericInput.LiteralIsValid | packages/nextjs/app/debug/_components/DebugContracts.tsx:63 | a non-empty decimal or non-decimal literal with no white space around it passes validation |
| NumericInput.DigitsAreValid | packages/nextjs/app/debug/_components/DebugContracts.tsx:63 | every non-empty string of decimal digits passes validation |
| NumericInput.HexIsValid | packages/nextjs/app/debug/_components/DebugContracts.tsx:63 | every `0x`/`0X` literal with at least one hexadecimal digit passes validation |
| NumericInput.PaddingKeepsValidity | packages/nextjs/app/debug/_components/DebugContracts.tsx:63 | a non-empty input is valid with a space added at each end exactly when it is valid without them, since `Number` trims both away |
| NumericInput.PaddedTrim | packages/nextjs/app/debug/_components/DebugContracts.tsx:63 | a space added at each end of the input does not change the text `Number` parses |
| NumericInput.SameTrimSameNaN | packages/nextjs/app/debug/_components/DebugContracts.tsx:63 | two inputs that trim to the same text are both NaN or both not |
| NumericInput.LiteralIsInvalid | packages/nextjs/app/debug/_components/DebugContracts.tsx:63 | text with no white space around it that is neither a decimal nor a non-decimal literal fails validation |
| TxLifecycle.TagInvariant | packages/nextjs/app/debug/_components/DebugContracts.tsx:46-58 | the operation tag is present exactly while the phase is pending: the only pending write carries a tag and every other write drops it |
| TxLifecycle.TagAbsent | packages/nextjs/app/debug/_components/DebugContracts.tsx:140 | `!txStatus.operation`: the tag is undefined or the empty string |
| TxLifecycle.IsOperationDisabled | packages/nextjs/app/debug/_components/DebugContracts.tsx:139-141 | a disabled control implies the pending phase; the control whose tag is pending is disabled; every control is disabled while pending with no tag |
| TxLifecycle.DisabledExactly | packages/nextjs/app/debug/_components/DebugContracts.tsx:139-141 | under the tag invariant, `op` is disabled if and only if the phase is pending and the tag is empty or equal to `op`; so nothing is disabled outside pending, and a control whose tag differs from a non-empty pending tag is enabled |
| TxLifecycle.ErrorMessage | packages/nextjs/app/debug/_components/DebugContracts.tsx:53 | the failure message is never empty; it is `reason` when `reason` is non-empty, else `message` when that is non-empty, else "Transaction failed" |
| TxLifecycle.ErrorMessageExamples | packages/nextjs/app/debug/_components/DebugContracts.tsx:51-54 | a failure with reason "insufficient funds" shows it; one with only message "network down" shows that; one with neither shows "Transaction failed" |
| TxLifecycle.Refresh | packages/nextjs/app/debug/_components/DebugContracts.tsx:22-30 | a successful read replaces the counter value; a failed read is swallowed and the old value stays |
| TxLifecycle.Submit | packages/nextjs/app/debug/_components/DebugContracts.tsx:43-47 | while pending, a submission changes nothing: no status change, no work unit, no reset; otherwise the status becomes pending with the caller's message and tag, and exactly one unit starts; no reset is scheduled at start; the tag invariant is kept |
| TxLifecycle.Settle | packages/nextjs/app/debug/_components/DebugContracts.tsx:47-59 | the settled unit leaves the in-flight list; exactly one reset is scheduled whatever the outcome; on success the status is success with that unit's own message and no tag, and the counter reflects the unit's read first; on failure the status is error with the prioritised message and no tag, and the counter is unchanged |
| TxLifecycle.FireReset | packages/nextjs/app/debug/_components/DebugContracts.tsx:57-59 | a firing timer always writes "none", an empty message and no tag, whatever the phase, even pending; it uses up one scheduled timer; the work units and the counter are untouched |
| TxLifecycle.Dispatch | packages/nextjs/app/debug/_components/DebugContracts.tsx:63-71 | invalid input writes error with "Please enter a valid number" in any phase; it starts no unit, schedules no reset and keeps the counter; valid input is submitted |
| TxLifecycle.SetNumberSuccess | packages/nextjs/app/debug/_components/DebugContracts.tsx:78 | the success message of the set handler quotes the input, which can be read back from the message |
| TxLifecycle.AddNumberSuccess | packages/nextjs/app/debug/_components/DebugContracts.tsx:99 | the success message of the add handler quotes the input, which can be read back from the message |
| TxLifecycle.MulNumberSuccess | packages/nextjs/app/debug/_components/DebugContracts.tsx:120 | the success message of the multiply handler quotes the input, which can be read back from the message |
| TxLifecycle.SetANumber | packages/nextjs/app/debug/_components/DebugContracts.tsx:62-81 | invalid input writes only the validation error; valid input is dropped while pending and otherwise starts a unit with "Setting number...", tag "setNumber" and the input's success message; the counter is never changed |
| TxLifecycle.AddNumber | packages/nextjs/app/debug/_components/DebugContracts.tsx:83-102 | as the set handler, with "Adding number...", tag "addNumber" and "Added <input> successfully!" |
| TxLifecycle.MulNumber | packages/nextjs/app/debug/_components/DebugContracts.tsx:104-123 | as the set handler, with "Multiplying number...", tag "mulNumber" and "Multiplied by <input> successfully!" |
| TxLifecycle.Increment | packages/nextjs/app/debug/_components/DebugContracts.tsx:125-136 | no validation, so it never writes an error; dropped while pending, otherwise starts a unit with "Incrementing number...", tag "increment" and "Number incremented successfully!" |
| TxLifecycle.Step | packages/nextjs/app/debug/_components/DebugContracts.tsx:43-136 | every event keeps the tag invariant |
| TxLifecycle.StepAccounting | packages/nextjs/app/debug/_components/DebugContracts.tsx:43-59 | an event adds one unit exactly when it is an accepted submission, and removes one exactly when it is a settling; a settling adds one scheduled reset and a firing removes one |
| TxLifecycle.RunAccounting | packages/nextjs/app/debug/_components/DebugContracts.tsx:43-59 | over any trace: units in flight plus units settled equals units at the start plus submissions accepted; resets outstanding plus resets fired equals resets at the start plus units settled |
| TxLifecycle.RunKeepsTagInvariant | packages/nextjs/app/debug/_components/DebugContracts.tsx:46-67 | over any trace from a state that has it, the operation tag is present exactly while pending |
| TxLifecycle.StaleResetAdmitsOverlap | packages/nextjs/app/debug/_components/DebugContracts.tsx:43-59 | a stale timer firing while a later unit is pending clears the status but not the unit; the guard and `isOperationDisabled` then let another submission in, so one more unit is in flight |
| TxLifecycle.StaleResetScenario | packages/nextjs/app/debug/_components/DebugContracts.tsx:43-59 | from the initial state, the trace increment, settle, increment, timer fires, increment is possible and ends pending with two units in flight |
| TxLifecycle.RejectionReopensGuard | packages/nextjs/app/debug/_components/DebugContracts.tsx:62-69 | invalid input while a unit is pending replaces pending with the validation error; the unit stays in flight, no control stays disabled, and the next increment is accepted |
| DebugContracts.Page.IsOperationDisabled | packages/nextjs/app/debug/_components/DebugContracts.tsx:139-141 | on a page that keeps the tag invariant, the control for `op` is disabled exactly while a unit is pending whose tag is empty or `op` |
| DebugContracts.Page.constructor | packages/nextjs/app/debug/_components/DebugContracts.tsx:14-20 | a new page has status "none", an empty message, no tag, an unknown counter, no units and no timers |
| DebugContracts.Page.FetchNumber | packages/nextjs/app/debug/_components/DebugContracts.tsx:22-30 | updates only the counter cell, as `Refresh` says |
| DebugContracts.Page.HandleTransaction | packages/nextjs/app/debug/_components/DebugContracts.tsx:36-47 | reports whether the guard let the submission through, and leaves the page in the state `Submit` gives |
| DebugContracts.Page.Settle | packages/nextjs/app/debug/_components/DebugContracts.tsx:47-59 | leaves the page in the state `TxLifecycle.Settle` gives, with the counter read done before the success status |
| DebugContracts.Page.FireReset | packages/nextjs/app/debug/_components/DebugContracts.tsx:57-59 | leaves the page in the state `TxLifecycle.FireReset` gives |
| DebugContracts.Page.Dispatch | packages/nextjs/app/debug/_components/DebugContracts.tsx:63-71 | leaves the page in the state `TxLifecycle.Dispatch` gives |
| DebugContracts.Page.SetANumber | packages/nextjs/app/debug/_components/DebugContracts.tsx:62-81 | validates, then submits with "Setting number...", "Number set to <input> successfully!" and tag "setNumber" |
| DebugContracts.Page.AddNumber | packages/nextjs/app/debug/_components/DebugContracts.tsx:83-102 | validates, then submits with "Adding number...", "Added <input> successfully!" and tag "addNumber" |
| DebugContracts.Page.MulNumber | packages/nextjs/app/debug/_components/DebugContracts.tsx:104-123 | validates, then submits with "Multiplying number...", "Multiplied by <input> successfully!" and tag "mulNumber" |
| DebugContracts.Page.Increment | packages/nextjs/app/debug/_components/DebugContracts.tsx:125-136 | submits with no validation, with "Incrementing number...", "Number incremented successfully!" and tag "increment" |
| DebugContracts.StaleTimerRace | packages/nextjs/app/debug/_components/DebugContracts.tsx:43-59 | run on the class: after a stale timer fires, the increment control is not disabled, and a third increment leaves the page pending with two units in flight |

## Left out

- Remote service client: the provider, the wallet, the contract object and its ABI (lines 4-11) are left out. So are the remote calls and `tx.wait()`. They are network I/O. Their effect is the outcome passed to `Settle` (confirmed with the unit's counter read, or failed with `reason` and `message`) and the `Fetch` passed to `FetchNumber`.
- The mount effect (lines 32-34) is not a separate member. Its one read is a `Refreshed` event, or a call to `Page.FetchNumber`.
- `TxLifecycle.Enabled` allows a `Refreshed` event at any time and any number of times. The page reads the counter outside a work unit only once, on mount. So the traces allow more reads than the page makes. The tag invariant and the accounting lemmas hold either way.
- Numeric conversion: `Number(currentNumber)` (line 26) turns a big integer into a floating-point number and can lose precision. The counter is kept as an unbounded `int`. The handlers' `Number(inputNumber)` is modelled only as the yes/no NaN test. The value sent to the contract is not modelled.
- Timers: the 5000 ms delay is not modelled. A scheduled timer is a count in `resets`, and `FireReset` is the event of one timer firing.
- React semantics: the guard at line 43 reads the status captured at render time. The model checks the current status instead. This is a simplification of the asynchronous code into sequential events.
- Thrown values: a work unit that throws `null` or `undefined` makes the `error.reason` access at line 53 throw again. Then no status is written and no timer is scheduled. The model assumes the thrown value is an object. It also assumes `reason` and `message` are strings, with the empty string meaning absent.
- Logging: `console.log` and `console.error` (lines 25, 28, 50) are left out.
- Presentation: rendering, class names, spinners and the input's `disabled` attribute (lines 143-373) are left out. The text field itself (`inputNumber`, line 15) is left out too. Its current value is the argument of each handler method.
