# Problem lifecycle of the math problem agent

This project models the service layer of a math practice application. The
service asks a language model for a problem. It coalesces the fields of the
reply and keeps the full record in a process-wide store keyed by a fresh id.
It hands back only the id and the display text. Later it grades a student's
work against the hidden solution, final answer and rubric of the stored
record.

Modules:

- `Json` (`json.dfy`): decoded JSON values, Python truthiness (`bool(v)`) and
  `dict.get(key, default)`.
- `Text` (`text.dfy`): Python's whitespace predicate (`str.isspace`, the exact
  list of code points) and `str.strip()`.
- `ProblemService` (`problem_service.dfy`): the coalescing rule, as a
  specification function `Coalesced` and as the loop `Coalesce` that the
  source runs. Also the grade normalisation and the class `Service`, which
  owns the store (`store: map<string, Problem>`). A ghost log `requests` on the
  class records every call to the model gateway. The gateway's reply to each
  call is an argument of the operation (`GatewayReply`). It is either a
  decoded JSON value, an endpoint failure or a reply that is not JSON.
- `Scenarios` (`scenarios.dfy`): clients that derive documented outcomes from
  the contracts alone. They cover a short-form generator reply, a padded
  feedback, a correct-answer reply, an unknown id and grading twice.

Behaviour of the code worth knowing:

- The display text is not guaranteed non-empty. When neither `display_md`
  nor `prompt` has content, the code stores `""`.
- `correct` is Python's truthiness of the reply's value. A string `"false"`
  is therefore true. It is false only when the key is absent or the value is
  falsy.
- The grading response nests the verdict: `{problem_id, result: {correct,
  feedback, hint}}` (`Graded`/`Verdict`), as the docstring at
  problem_service.py:60-65 describes.
- `title`, `topic` and `difficulty` are kept as the reply gives them, of any
  JSON type. The request's values replace them only when the key is absent.

## Model

| member | source | states |
|---|---|---|
| `Json.Truthy` | problem_service.py:85 | Python's `bool(v)` on a decoded JSON value: null, `false`, zero and the empty string, list and object are false, everything else (the string `"false"` included) is true |
| `Text.IsSpace` | problem_service.py:16 | the characters for which `str.isspace()` holds and which `str.strip()` removes: the ASCII controls 9-13 and 28-31, space, U+0085, U+00A0, U+1680, U+2000-U+200A, U+2028, U+2029, U+202F, U+205F and U+3000 |
| `Text.LeadingSpaces` | problem_service.py:86 | the length of the longest whitespace prefix: that prefix is all whitespace and the next character is not |
| `Text.TrailingSpaces` | problem_service.py:86 | the length of the longest whitespace suffix: that suffix is all whitespace and the character before it is not |
| `Text.Strip` | problem_service.py:86 | `str.strip()`: the result is a slice of the input with only whitespace cut on either side and no whitespace at either end; it is empty exactly when the input is all whitespace |
| `Text.StripIdempotent` | problem_service.py:86 | stripping a stripped string changes nothing |
| `Text.StripNonEmptyIff` | problem_service.py:16 | `v.strip()` is truthy exactly when `v` holds a non-whitespace character |
| `ProblemService.Qualifies` | problem_service.py:15-16 | the test `isinstance(v, str) and v.strip()` on `payload.get(k)`: the key is present, its value is a string, and the stripped string is non-empty |
| `ProblemService.Coalesced` | problem_service.py:12-18 | the coalesced value is the default or the string under one of the candidate keys that has non-whitespace content |
| `ProblemService.Coalesce` | problem_service.py:12-18 | the loop that walks the keys in order and returns early computes exactly `Coalesced` |
| `ProblemService.CoalescedFirstQualifying` | problem_service.py:14-17 | the value under the first key, in order, that holds a string with content is the result |
| `ProblemService.CoalescedNoneQualifies` | problem_service.py:14-18 | when every key is absent, holds a non-string, or holds an empty or whitespace-only string, the result is the default |
| `ProblemService.CoalescedIgnoresLaterKeys` | problem_service.py:14-17 | once some key qualifies, appending further keys does not change the result |
| `ProblemService.CoalescedPair` | problem_service.py:34-37 | for a long-form/short-form pair: the long form wins when it has content, a blank or non-string long form falls through to the short form, and neither gives `""` |
| `ProblemService.PublicView` | problem_service.py:56 | the generation response has exactly the keys `id` and `prompt`, with the record's id and display text; `solution`, `final_answer` and `rubric` are not among them |
| `ProblemService.NormalizeGrade` | problem_service.py:84-93 | the response carries the argument id; `correct` is the truthiness of `correct`, false when absent; `feedback` is the stripped string, `""` when absent; `hint` is passed through, null when absent; a non-string feedback fails |
| `ProblemService.NormalizedFeedbackIsTrimmed` | problem_service.py:86 | normalised feedback neither starts nor ends with whitespace |
| `ProblemService.Service.constructor` | problem_service.py:9 | the store starts empty and no gateway call has been made |
| `ProblemService.Service.GenerateProblem` | problem_service.py:21-56 | one generator request is sent; on failure the store is unchanged; on success the store grows by exactly one entry under the fresh id, earlier entries are unchanged, the record's id is its key, its four fields are the coalescing of their key pairs, the metadata defaults apply only to absent keys, and the caller gets only `PublicView` of the record |
| `ProblemService.Service.GradeProblem` | problem_service.py:59-93 | the store never changes; an unknown id fails with `UnknownProblemId` and sends no request; otherwise one grader request is sent whose solution, final answer and rubric are the stored record's, with the student's work and answer, and the result is the normalised reply or the gateway's error |
| `Scenarios.PaddedFeedbackOnly` | problem_service.py:84-88 | a reply `{"feedback": " good job "}` normalises to incorrect, `"good job"`, null hint |
| `Scenarios.ShortFormField` | problem_service.py:34-37 | for any payload: when the long-form key is absent and the short-form key holds a string that is not all whitespace, the field is that string |
| `Scenarios.ShortFormDisplay` | problem_service.py:34 | a short-form-only reply gives `prompt` as the display text |
| `Scenarios.ShortFormSolution` | problem_service.py:35 | a short-form-only reply gives `solution` as the stored solution |
| `Scenarios.ShortFormFinalAnswer` | problem_service.py:36 | a short-form-only reply gives `final_answer` as the stored final answer |
| `Scenarios.ShortFormRubric` | problem_service.py:37 | a short-form-only reply gives `rubric` as the stored rubric |
| `Scenarios.CorrectReplyNormalizes` | problem_service.py:84-88 | a reply `{"correct": true, "feedback": "Nice work"}` normalises to correct, `"Nice work"`, null hint |

## Left out

- The model gateway (llm_utils.py): the chat-completion call and `json.loads`
  are foreign I/O and parsing. Their outcome is the `GatewayReply` argument.
  The openai client's and the JSON decoder's exception classes are collapsed
  into `GatewayUnavailable` and `MalformedResponse`.
- Prompt text (prompts.py): the `str.format` interpolation is not modelled. A
  request records the model name and the values interpolated into it
  (`Request`). The system prompts, the temperature and the response format
  are not recorded.
- `uuid.uuid4()`: randomness is replaced by an id supplied to
  `GenerateProblem` under the precondition that it is non-empty and not yet
  in the store.
- Schema validation (validators.py): it wraps a third-party validator over
  schema documents that are not part of this model.
- The user interface (streamlit_app.py): session state, the timer and the
  attempt and accuracy counters live in UI callbacks.
- Concurrent access to the store: the model is sequential.
- JSON numbers are reals. Python's split between `int` and `float` is not
  kept, and the `NaN` and `Infinity` that `json.loads` accepts are not
  representable (Python treats both as true).
- JSON strings are sequences of Dafny characters, which are Unicode scalar
  values. The lone surrogates that `json.loads` produces from escapes such as
  `"\ud800"` cannot be held. No whitespace character is a surrogate, so
  coalescing and stripping are unaffected.
- Duplicate keys in a reply object are not modelled: a reply is already a map.
- Python's exceptions become `Result` values. An `AttributeError` from a
  non-object reply or a non-string feedback is `NotAnObject` or
  `FeedbackNotString`.
