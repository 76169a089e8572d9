# Sequential-thinking thought ledger, modelled in Dafny

This project models the thought ledger of trae-agent's sequential-thinking
tool (`trae_agent/tools/sequential_thinking_tool.py`). An agent calls the tool
once per reasoning step with a loosely typed argument bag. The tool does three
things with it:

- It validates the bag into a `ThoughtData` record. The checks run in a fixed
  order and the first failure decides the message.
- It raises the record's total estimate to its step number when the number is
  larger.
- It appends the record to the history. When the step names a nonzero branch
  point and a non-empty branch identifier, it also files the record under that
  branch.

It then reports a status: the step number, the corrected total, the
continuation flag, the branch names in insertion order and the history length.
A rejected call changes nothing and answers with the validation message and
error code -1. A separate pure renderer draws a record as a labelled box.

Modules, one concept each:

- `Values` models the argument bag as `map<string, Value>`. A `Value` is
  `Null`, `Bool`, `Int` or `Str`. The module also gives Python's `bool(v)` and
  `str(v)`, with a decimal rendering of integers that is proved to read back.
- `ThoughtRecords` holds the `ThoughtData` record, its well-formedness, and the
  upward total correction.
- `Validation` holds `_validate_thought_data` as a total function to
  `Result<ThoughtData, ValidationError>`. Each error carries the exact
  `ValueError` text.
- `Formatting` holds `_format_thought` as pure string functions.
- `ThinkingTool` holds the ledger.
  - `Submit` is the specification of one call, on a `Ledger` value.
  - `Consistent` is the invariant it keeps. The branch index is exactly the
    filed records of the history, and the key order is their order of first
    appearance.
  - `Run` folds a sequence of calls over a ledger.
  - The class `SequentialThinkingTool` keeps the history and branches in
    fields. Its `Execute` updates those fields in place and is proved equal
    to `Submit`.

Python's dict keeps its keys in insertion order. The model keeps that order
in a separate field, `branchKeys`, beside the `branches` map. The invariant
ties the two together.

Three behaviours of the code worth noting:

- An empty `thought` is accepted.
- Error texts are the code's `ValueError` messages.
- A record may carry an empty `branch_id`; it is then stored in the history
  but filed under no branch.

## Model

| member | source | states |
|---|---|---|
| Values.IntToStringRoundTrip | trae_agent/tools/sequential_thinking_tool.py:373 | Python's decimal rendering of an integer used in the header reads back as the same integer, so it loses nothing |
| Values.IntToStringInjective | trae_agent/tools/sequential_thinking_tool.py:373 | distinct step numbers render as distinct text |
| Values.Truthy | trae_agent/tools/sequential_thinking_tool.py:335-342 | Python's `bool(v)` is false exactly for `None`, `False`, `0` and empty text |
| Values.PyStr | trae_agent/tools/sequential_thinking_tool.py:338-339 | Python's `str(v)` keeps text as it is, renders an integer in canonical decimal (no leading zero, and `0` as exactly `0`) that reads back as the integer, renders booleans as `True`/`False`, and is empty only for empty text |
| Values.IntToString | trae_agent/tools/sequential_thinking_tool.py:373 | the rendering starts with a minus sign exactly for negative integers, and otherwise holds only digits; there is no leading zero, after the sign or otherwise, except in `0` itself, which is exactly the text `0` |
| Values.NatToString | trae_agent/tools/sequential_thinking_tool.py:373 | the rendering is a non-empty string of digits with a leading zero only for zero, which renders as exactly `0` |
| ThoughtRecords.Corrected | trae_agent/tools/sequential_thinking_tool.py:391-393 | the stored record differs from the validated one only in its total, which is the larger of the supplied total and the step number (never lowered) |
| Validation.ValidationError.Message | trae_agent/tools/sequential_thinking_tool.py:272-318 | a type-check message reads "Invalid " then the parameter's name then a colon; a range-check message starts with the parameter's name and a space |
| Validation.OptionalBool | trae_agent/tools/sequential_thinking_tool.py:335-336 | an optional flag is `None` exactly when missing or `None`, and otherwise Python's `bool` of the value, which is the value itself for a boolean |
| Validation.OptionalStr | trae_agent/tools/sequential_thinking_tool.py:338-339 | an optional identifier is `None` exactly when missing or `None`, otherwise Python's `str` of the value, which is the value itself for text and is empty only for empty text |
| Validation.Validate | trae_agent/tools/sequential_thinking_tool.py:270-354 | an accepted bag has string `thought`, integer step number and total, boolean `next_thought_needed`, all carried into a well-formed record (number and total at least 1, step references absent or positive) |
| Validation.OptionalPositive | trae_agent/tools/sequential_thinking_tool.py:294-322 | an optional step reference is rejected only with its own message, and a kept value is the supplied positive integer |
| Validation.ValidationOrder | trae_agent/tools/sequential_thinking_tool.py:272-322 | the call is rejected with check i exactly when rule i is broken and no earlier rule is: the first broken rule wins |
| Validation.ValidationAccepts | trae_agent/tools/sequential_thinking_tool.py:270-354 | a call is accepted exactly when it breaks none of the eight rules |
| Validation.UnrollCheckOrder | trae_agent/tools/sequential_thinking_tool.py:272-322 | "no earlier rule broken" unfolds rule by rule in the order thought, number, total, flag, number ≥ 1, total ≥ 1, revises, branch point |
| Validation.ZeroAsAbsent | trae_agent/tools/sequential_thinking_tool.py:294-322 | a `0` or `None` in `revises_thought` or `branch_from_thought` gives the same outcome as leaving the field out |
| Validation.StepReferencesKept | trae_agent/tools/sequential_thinking_tool.py:294-322 | a step reference is absent in the record exactly when it was missing, `None` or zero, and otherwise equals the supplied positive integer |
| Validation.OptionalFieldsCarried | trae_agent/tools/sequential_thinking_tool.py:331-342 | `is_revision`, `needs_more_thoughts` and `branch_id` are `None` exactly when missing or `None`; otherwise the flags are Python's `bool` of the value and the identifier its `str`, so a supplied boolean or string is carried unchanged |
| Validation.ToArgsLookups | trae_agent/tools/sequential_thinking_tool.py:270-354 | the argument bag built from a record presents each field under its parameter name and each optional field only when set |
| Validation.ValidateToArgs | trae_agent/tools/sequential_thinking_tool.py:270-354 | validating the argument bag of a well-formed record gives back that record; an accepted bag's record has number and total at least 1 |
| Formatting.KindOf | trae_agent/tools/sequential_thinking_tool.py:361-371 | a step is labelled a revision exactly when `is_revision` is true, a branch exactly when it is not a revision and the branch point is set and nonzero, and plain otherwise |
| Formatting.ContextShape | trae_agent/tools/sequential_thinking_tool.py:358-371 | the context note is empty exactly for a plain step, otherwise it is a space and a parenthesised note, and a branch note ends with the branch identifier and a closing parenthesis |
| Formatting.HeaderLayout | trae_agent/tools/sequential_thinking_tool.py:373 | the header is the label, a space, the step number, a slash, the total and the context note, with nothing in between |
| Formatting.Repeat | trae_agent/tools/sequential_thinking_tool.py:375 | the border is exactly the requested number of copies of the rule character |
| Formatting.LeftJustify | trae_agent/tools/sequential_thinking_tool.py:379-381 | `ljust` keeps the text as a prefix, pads only with spaces, and reaches the width unless the text is longer |
| Formatting.BorderLength | trae_agent/tools/sequential_thinking_tool.py:374 | the border is four longer than the longer of header and thought |
| Formatting.BoxLines | trae_agent/tools/sequential_thinking_tool.py:377-382 | the box has five lines, all of width border length + 2 |
| Formatting.FormatThought | trae_agent/tools/sequential_thinking_tool.py:377-382 | the rendering is five line breaks, each followed by one box line: line `k` starts right after the break at offset `k` times the common line width plus one |
| Formatting.RowShowsText | trae_agent/tools/sequential_thinking_tool.py:379-381 | a text row is a bar, a space, the text, only spaces, a bar, at full width |
| Formatting.BoxShowsContent | trae_agent/tools/sequential_thinking_tool.py:374-382 | the header row shows the header, the content row the thought, and the three border lines are unbroken rules |
| Formatting.LabelPriority | trae_agent/tools/sequential_thinking_tool.py:361-373 | the header opens with "Revision" when `is_revision` is true (even for a branch), else "Branch" when the branch point is nonzero, else "Thought" with no context |
| ThinkingTool.Record | trae_agent/tools/sequential_thinking_tool.py:395-402 | storing a step appends it to the history; when it names a nonzero branch point and a non-empty identifier it is appended to that branch, created empty if new; other branches are untouched; the key set gains exactly that identifier when the step is filed, and the key list gains it at the end exactly when it is a new key |
| ThinkingTool.Submit | trae_agent/tools/sequential_thinking_tool.py:385-426 | a call fails exactly when validation fails; a failure leaves the ledger unchanged and reports the message with code -1; a success grows the history by one and reports the new length |
| ThinkingTool.TotalCorrection | trae_agent/tools/sequential_thinking_tool.py:409-412 | the reported total is the larger of the supplied step number and total; number and continuation flag are reported as supplied |
| ThinkingTool.HistoryAppend | trae_agent/tools/sequential_thinking_tool.py:391-396 | an accepted call appends exactly its corrected record, earlier entries untouched, and reports the new history length |
| ThinkingTool.BranchFiling | trae_agent/tools/sequential_thinking_tool.py:399-413 | the record is filed exactly when the supplied branch point is a positive integer and `str(branch_id)` is non-empty, and it is filed under that text; a new key starts empty and goes last; other branches are unchanged; reported branches are the keys in insertion order |
| ThinkingTool.NotNamedNotFiled | trae_agent/tools/sequential_thinking_tool.py:399-402 | a branch name is listed exactly when some record of the history is filed under it |
| ThinkingTool.BranchNamesDistinct | trae_agent/tools/sequential_thinking_tool.py:400-401 | each branch key is listed once |
| ThinkingTool.FiledUnderInHistory | trae_agent/tools/sequential_thinking_tool.py:396-402 | a record filed under a branch is in the history and carries that branch's identifier |
| ThinkingTool.BranchesIndexHistory | trae_agent/tools/sequential_thinking_tool.py:396-402 | in a consistent ledger every branch entry is also a history entry, filed under its own identifier |
| ThinkingTool.EmptyConsistent | trae_agent/tools/sequential_thinking_tool.py:263-264 | the empty ledger satisfies the invariant |
| ThinkingTool.RecordPreservesConsistent | trae_agent/tools/sequential_thinking_tool.py:396-402 | storing a corrected record keeps the branch index equal to what the history determines |
| ThinkingTool.SubmitPreservesConsistent | trae_agent/tools/sequential_thinking_tool.py:385-426 | every call, accepted or rejected, keeps the ledger invariant |
| ThinkingTool.RunAppendsAccepted | trae_agent/tools/sequential_thinking_tool.py:396 | after any sequence of calls the history is the old history followed by the accepted calls' corrected records, in call order |
| ThinkingTool.AcceptedAll | trae_agent/tools/sequential_thinking_tool.py:389-396 | when every call is accepted, each contributes one record |
| ThinkingTool.HistoryLengthAfterAcceptedCalls | trae_agent/tools/sequential_thinking_tool.py:414 | after N accepted calls on a new tool the history length is N |
| ThinkingTool.RunConsistent | trae_agent/tools/sequential_thinking_tool.py:385-426 | from any consistent ledger, the invariant holds after any sequence of calls |
| ThinkingTool.FirstStepScenario | trae_agent/tools/sequential_thinking_tool.py:409-415 | a first plain step 1 of 3 reports number 1, total 3, no branches, history length 1 |
| ThinkingTool.CorrectedTotalScenario | trae_agent/tools/sequential_thinking_tool.py:392-393 | step 5 of an estimated 3 reports total 5 |
| ThinkingTool.ForkScenario | trae_agent/tools/sequential_thinking_tool.py:399-402 | a step forking from 1 with id "alt" creates the single branch "alt" holding just that step |
| ThinkingTool.ZeroStepNumberScenario | trae_agent/tools/sequential_thinking_tool.py:287-288 | an empty thought with step number 0 is rejected for the step number, leaving the ledger alone |
| ThinkingTool.RevisesZeroScenario | trae_agent/tools/sequential_thinking_tool.py:294-307 | `revises_thought = 0` is accepted and stored as absent |
| ThinkingTool.SequentialThinkingTool.constructor | trae_agent/tools/sequential_thinking_tool.py:261-264 | a new tool has an empty history and no branches, and satisfies the invariant |
| ThinkingTool.SequentialThinkingTool.Store | trae_agent/tools/sequential_thinking_tool.py:396-402 | the in-place append to the history and to the branch lists leaves the fields equal to `Record` of the old state |
| ThinkingTool.SequentialThinkingTool.Execute | trae_agent/tools/sequential_thinking_tool.py:385-426 | the in-place update of history, branches and key order, and the answer, equal `Submit` on the old state; a failure changes no field and has code -1; a success appends the corrected record |

## Left out

- Python's `bool` is a subclass of `int`, which the model does not reproduce. In the source, `True` passes the integer checks as 1. `False == 0`, so `revises_thought = False` counts as absent. In the model a `Bool` fails an integer check. The same holds for `next_thought_needed`, which must be a real `Bool`.
- Argument values other than `None`, booleans, integers and strings are not modelled. This covers floats, lists and objects. In `revises_thought` and `branch_from_thought` a float `0.0` counts as absent and any other float is rejected. A float in `thought`, `thought_number`, `total_thoughts` or `next_thought_needed` fails its type check. In `is_revision`, `needs_more_thoughts` or `branch_id` it is converted by `bool()` or `str()`.
- The human-readable wrapper text and the `json.dumps` serialisation of the status or error are not modelled. The result is the `Status` datatype, or the error message with code -1.
- `get_name`, `get_description`, `get_parameters`, the model-provider plumbing and the `Tool` base class are left out. They hold static text, a schema and foreign types.
- `execute` is `async` in the source but awaits nothing. It is modelled as an ordinary method, and no concurrency is involved.
- The commented-out console output of the formatted thought is I/O. The call that would format the step before printing it is commented out too, so `Execute` does not call `FormatThought`.
- The source puts one shared record object in both the history and a branch list. The model stores values. Nothing mutates a stored record afterwards, so the observable state is the same.
- Validate: Python refuses to convert an integer of more than 4300 decimal digits to text and raises `ValueError` instead. The model's integers are unbounded and `PyStr` has no such limit, so the rejection of a huge integer `branch_id` by `str(...)` is not modelled.
- Submit: for the same reason, `json.dumps` of the status fails for a step number or total of more than 4300 digits. In the source this happens after the record is already in the history and possibly in a branch, and the call answers with code -1. The model reports success for such a call; this state-changing failure is not modelled.
- Execute: follows `Submit`, so neither conversion failure above is modelled in it either.
- FormatThought: the header's rendering of a step number of more than 4300 digits would raise the same error; `IntToString` renders any integer.
- `trae_agent/prompt/agent_prompt.py` is a prose prompt constant with no logic.
