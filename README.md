# Docu-drift gate

A model of the pull-request gate in `docu_drift_agent.py`. The agent fetches the
first page of the list of files a pull request changes, with one unpaginated
request, and takes each record's `filename`. It
treats a name starting with `routes/` as a code change and a name starting with
`docs/` as a documentation change. When code changed and documentation did not,
it asks a language model for feedback and posts a review that requests changes.
The review body is the fixed header `❌ Documentation Drift Detected` and a blank
line, followed by the feedback. It then sets the commit status `failure` with
the description `Documentation update required`. In every other case it sets
the status `success` with the description `Documentation is consistent`. Both
statuses are reported under the context `Docu-Drift Agent`.

The module `DriftGate` (`drift_gate.dfy`) models this as pure functions, as the
script computes it: a list comprehension, two `any(... startswith ...)` tests
and one condition. The requests sent to the code host come out of `Run` as a
list of `Effect` values, in the order the script sends them. The language
model's answer is the parameter `reply`: `Some` text, or `None` when the call
fails or returns no content, in which case the script stops before sending
anything.

The script decides on the two path prefixes alone and has two outcomes. It has
no README section index, no intent classification and no check of patch
contents, and neither does this model.

## Model

| member | source | states |
|---|---|---|
| `DriftGate.ChangedNames` | docu_drift_agent.py:33 | one name per file record, same length, and the i-th name is the i-th record's `filename` |
| `DriftGate.StartsWithByCharacters` | docu_drift_agent.py:35-36 | the prefix test holds exactly when the prefix is no longer than the name and agrees with it character by character (exact, case-sensitive) |
| `DriftGate.AnyStartsWith` | docu_drift_agent.py:35-36 | `any(f.startswith(p) for f in names)` is true exactly when some index holds a name with prefix `p` |
| `DriftGate.Decide` | docu_drift_agent.py:35-38 | the gate finds drift if and only if some name starts with `routes/` and no name starts with `docs/` |
| `DriftGate.ReviewBody` | docu_drift_agent.py:48 | the review body starts with the drift header, and removing the header gives back the feedback unchanged |
| `DriftGate.StatusFor` | docu_drift_agent.py:49-51 | the status is `failure` exactly on drift and `success` exactly otherwise, with descriptions `Documentation update required` and `Documentation is consistent`, under the context `Docu-Drift Agent` |
| `DriftGate.Run` | docu_drift_agent.py:32-51 | over the file records: without drift (no record under `routes/`, or some record under `docs/`) the one request is status `success` / `Documentation is consistent` under `Docu-Drift Agent`; with drift and a reply, a review requesting changes whose body is the header followed by the reply, then status `failure` / `Documentation update required`; with drift and no usable reply, no request at all |
| `DriftGate.RunReportsDecision` | docu_drift_agent.py:33-51 | whenever a run sends anything, its last request is the status of the gate's decision over the record names, and a review precedes it exactly when the decision is drift |
| `DriftGate.RunIgnoresReplyWithoutDrift` | docu_drift_agent.py:38-51 | without drift the language model's answer has no effect on the requests sent |
| `DriftGate.EmptyChangeSetIsConsistent` | docu_drift_agent.py:35-51 | a pull request with no changed files passes |
| `DriftGate.NoCodeChangeIsConsistent` | docu_drift_agent.py:35-51 | with no name under `routes/` the gate passes, whatever documentation or other files changed |
| `DriftGate.AnyStartsWithAppend` | docu_drift_agent.py:35-36 | the prefix test over a concatenated list is the disjunction of the tests over its parts |
| `DriftGate.AnyStartsWithSameNames` | docu_drift_agent.py:35-36 | two lists holding the same names give the same prefix test result |
| `DriftGate.IrrelevantNamesIgnored` | docu_drift_agent.py:35-38 | inserting names that are neither under `routes/` nor under `docs/`, anywhere in the list, leaves the decision unchanged |
| `DriftGate.SameNamesSameDecision` | docu_drift_agent.py:35-38 | the decision depends only on the set of names |
| `DriftGate.PermutationSameDecision` | docu_drift_agent.py:35-38 | any reordering of the list gives the same decision |
| `DriftGate.DuplicateSameDecision` | docu_drift_agent.py:35-38 | repeating a name that is already listed gives the same decision |
| `DriftGate.DocsChangeMakesConsistent` | docu_drift_agent.py:36-38 | adding a name under `docs/` at any position makes the gate pass |
| `DriftGate.CodePrefixIsExact` | docu_drift_agent.py:35-38 | `Routes/x`, `routes` and `src/routes/x` are not code changes and alone pass; `routes/users.py` alone is drift, and with `docs/api.md` it passes |

## Left out

- Fetching the file list (docu_drift_agent.py:16-18, 32): an HTTP GET and JSON decoding. The model starts from a list of records that each have a `filename`. A failed request, an error payload or a record without `filename` is not modelled.
- Pagination (docu_drift_agent.py:17-18): the request asks for no page, so the code host returns only its first page of changed files (30 by default). The model's file list is that first page; a `routes/` or `docs/` file beyond it is never seen by the script, and `DocsChangeMakesConsistent`, `IrrelevantNamesIgnored` and the other lemmas hold for the records returned, not for the whole pull request.
- Sending the review and the status (docu_drift_agent.py:20-30): the URLs, headers and transport are not modelled. Only the arguments each call carries are kept, as `Effect` values.
- The language-model call (docu_drift_agent.py:39-46): an external service. Its prompt embeds Python's rendering of the name list; the prompt is not modelled, and the reply is the `reply` parameter. A call that raises and a reply whose content is `None` (which makes the concatenation at line 48 raise) are both `None`, and `Run` then sends nothing; the traceback and the process's exit status are not modelled.
- Configuration from the environment and client setup (docu_drift_agent.py:5-14): process settings with no logic.
- Strings: Python strings are sequences of code points and Dafny strings are sequences of Unicode scalar values. Lone surrogate code points, which Python allows and Dafny does not, are not modelled.
