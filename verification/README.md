# Nova Pro planner: plan extraction and prompt payload

This project is a Dafny model of the pure logic in `planner/app.py` of the planner service.
The service forwards a coding task to an Amazon Bedrock model through the Converse API. It
asks the model to answer by calling the `emit_plan` tool, and returns the tool's input as a
plan of file and command actions. Two pieces of that file are modelled:

- **Plan extraction and guard** (`_ask_bedrock_for_plan`, after the Converse call returns).
  The decoded response goes in; a plan or an error comes out. The code walks
  `output.message.content`, treating a missing or falsy level as empty. It keeps the blocks
  for which `"toolUse" in b` holds and takes the first. It refuses any tool not named
  `emit_plan`. It takes `input or {}` as the plan and refuses the first `update_file` action
  whose `contents` is missing or falsy.
- **Prompt payload** (`_payload`). This builds the user message: the project manifest (or a
  fixed default), the file tree, the snippets (each cut to 2000 characters), and the task.

Files:

- `wrappers.dfy`: `Option`, `Result` and `Check`, the failure-compatible datatypes.
- `json.dfy`: module `JsonValues`. The decoded JSON value and the Python operations the code
  applies to it: truthiness, `x or {}`, `dict.get`, `in`, and iterating a string.
- `text.dfy`: module `Text`. Substring containment, `sep.join` and `s.split` for one
  character, and the proof that split undoes join.
- `plan_extraction.dfy`: module `PlanExtraction`. The error type and the extraction itself.
  `ExtractPlan` is `SelectToolUse` (lines 154-158) followed by `PlanFromToolUse`
  (lines 159-167).
- `plan_properties.dfy`: module `PlanProperties`. Lemmas that tie the extraction to
  independent descriptions: the first carrier block, the smallest failing index, and the
  well-shaped response.
- `plan_examples.dfy`: module `PlanExamples`. Concrete responses with their outcomes.
- `payload.dfy`: module `Payload`. The context record and the payload builder.

Errors. Each `raise RuntimeError` of the source is an `Err` constructor: `NoToolUse`,
`UnexpectedTool(name)` or `EmptyUpdate(index)`. On ill-typed input, Python itself raises
AttributeError or TypeError. Examples are `.get` on a list, `"toolUse" in None`,
subscripting a str with `"toolUse"`, or `enumerate(None)`. Each of these is the explicit
error `IllTyped`. Behaviour on ill-typed input that does not raise is modelled as Python
does it:

- `"toolUse" in "some text"` is a substring test, and `"toolUse" in [...]` tests list
  membership.
- Iterating a str `content` visits one-character strings, so nothing is selected.
- Iterating an empty dict or an empty str `actions` visits nothing.

The route turns every exception into HTTP 500, so `IllTyped` is a failure like the others.

Whitespace-only `contents` passes the guard. Line 165 tests falsiness only and does no
trimming, and the model follows the code.

## Model

| member | source | states |
|---|---|---|
| PlanExtraction.ExtractPlan | planner/app.py:153-167 | The whole post-call step. A non-object response is `IllTyped`. An absent or falsy `output` gives `NoToolUse`. `NoToolUse` comes only from the selection step. A returned plan is always an object, and every action in its `actions` list passes the guard. |
| PlanExtraction.SelectToolUse | planner/app.py:154-158 | A non-object response is `IllTyped`. An absent or falsy `output` gives `NoToolUse`. Selection fails only with `NoToolUse` or `IllTyped`. |
| PlanExtraction.ToolUseBlocks | planner/app.py:155 | The filter fails, always with `IllTyped`, iff some block makes `in` raise. On success it keeps at most as many blocks as it is given, and each kept block is one of them for which `"toolUse" in b` holds. |
| PlanExtraction.ContentToolUseBlocks | planner/app.py:155 | What iterating `msg.get("content") or []` selects. Falsy content selects nothing. A list is filtered block by block. A str selects nothing, since no one-character str contains `toolUse`. A non-empty dict fails with `IllTyped` iff one of its keys contains `toolUse`, and otherwise selects nothing. A truthy number or `true` is `IllTyped`. |
| PlanExtraction.CharsSelectNothing | planner/app.py:155 | Iterating any str visits one-character strs, and the `toolUse` filter keeps none of them and raises on none. |
| PlanExtraction.CheckActionsFrom | planner/app.py:164-166 | Passing means every action from index i on is an object that is not an empty `update_file`. An `EmptyUpdate(k)` has k in range, naming an empty `update_file`. `IllTyped` means some action is not an object. No other error is possible. |
| PlanExtraction.ActionItems | planner/app.py:164 | `enumerate` visits a list's items in order. `None`, numbers, bools and a non-empty dict give `IllTyped`. An empty str or dict visits nothing. A non-empty str visits only non-objects, which the guard then refuses. |
| PlanExtraction.PlanFromToolUse | planner/app.py:159-167 | A non-object `toolUse` is `IllTyped`. A name other than exactly `emit_plan` gives `UnexpectedTool` carrying that name, and only that does. A missing or falsy `input` gives the empty plan `{}`. An input with no `actions` key comes back as is. Any plan returned is the tool's `input` (or `{}`) unmodified. The result is never `NoToolUse`. |
| PlanProperties.CheckActionsFromSpec | planner/app.py:164-166 | The guard loop from index i succeeds iff every action from i on is an object that is not an empty `update_file`. When it reports `EmptyUpdate(k)`, k is the first such action from i on, and every earlier one passed. |
| PlanProperties.GuardReportsFirstEmptyUpdate | planner/app.py:164-166 | Fail-fast in list order. The guard accepts iff every action is acceptable. An `EmptyUpdate` error carries the smallest index of an `update_file` with missing or falsy `contents`, and that index is always the one reported. |
| PlanProperties.OnlyUpdateFileIsChecked | planner/app.py:165 | Actions whose `type` is not `update_file` are never refused, whatever their fields. This covers `create_file`, `delete_file` and `run_command`. |
| PlanProperties.PlanGuardedByActions | planner/app.py:161-167 | For an `emit_plan` call whose input has an `actions` list, the input comes back unchanged iff every action passes the guard. Otherwise the error names the first empty `update_file`. |
| PlanProperties.NothingSelected | planner/app.py:155 | The `toolUse` filter selects nothing iff `in` answers False on every block without raising. |
| PlanProperties.FirstSelectedKept | planner/app.py:155-158 | When no block makes `in` raise, the filter succeeds and its first element is the first block containing `toolUse`. |
| PlanProperties.MissingLevelsGiveNoToolUse | planner/app.py:154-157 | An absent or falsy `output`, `message` or `content` leads to `NoToolUse`. |
| PlanProperties.NoToolUseIffNoCarrier | planner/app.py:155-157 | For a well-shaped response, the result is `NoToolUse` iff no content block has a `toolUse` key. |
| PlanProperties.FirstCarrierDecides | planner/app.py:155-158 | For a well-shaped response, the outcome is that of checking the `toolUse` of the first block carrying one. |
| PlanProperties.LaterBlocksIgnored | planner/app.py:155-158 | Two well-shaped responses that agree up to and including the first block carrying a `toolUse` give the same outcome. Later blocks are ignored. |
| PlanExamples.ResponseDecidedBy | planner/app.py:154-158 | A response whose content is a list is decided by its first selected block, provided no block makes `in` raise. |
| PlanExamples.TextBlocksSkipped | planner/app.py:155 | A text block, and a plain string not mentioning `toolUse`, before the tool block are skipped. |
| PlanExamples.WrongToolReported | planner/app.py:159-160 | A `wrong_tool` call is refused with `UnexpectedTool("wrong_tool")`. |
| PlanExamples.WhitespaceContentsPass | planner/app.py:165 | An `update_file` whose `contents` is three spaces passes, and the plan is returned. |
| PlanExamples.FirstEmptyUpdateReported | planner/app.py:164-166 | An empty `create_file` is ignored. An `update_file` without `contents` at index 1 is reported ahead of the empty one at index 2. |
| PlanExamples.EmptyResponseRefused | planner/app.py:154-157 | An empty response is `NoToolUse`. |
| Payload.Truncate | planner/app.py:136 | A rendered snippet value has at most 2000 characters. It is a prefix of the value, as long as the value or 2000 characters, whichever is less. `None` renders as the empty string. |
| Payload.RenderSnippet | planner/app.py:136 | A snippet renders as its name, `:` and a newline, followed by a prefix of its value. That prefix has the value's length or 2000 characters, whichever is less, so nothing within the limit is dropped. `None` renders as the name line alone. |
| Payload.BuildPayload | planner/app.py:131-138 | The payload is three consecutive parts that do not overlap. First come the manifest header, the serialised effective manifest, the tree header, the newline-joined tree and the snippets header. Next are the rendered snippets joined by blank lines. Last is `"\n\nTASK:\n"` followed by the prompt. Its length is the sum of the three. |
| Payload.PayloadBounded | planner/app.py:131-138 | However long the snippet values, the payload is no longer than its head, plus each snippet name with 2004 characters, plus the task part. |
| Payload.ManifestSection | planner/app.py:132-134 | An empty manifest is replaced by the default `{framework: next, router: app, typescript: true, tailwind: true}`. A non-empty manifest is serialised as given. |
| Text.SplitJoin | planner/app.py:135 | The file-tree section `"\n".join(tree)` is lossless: splitting it at the separator gives back the tree, for a non-empty tree whose entries contain no separator. |
| Payload.SnippetsSectionBounded | planner/app.py:136 | However long the values, the snippets section is no longer than, for each snippet, its name plus 2004 characters. |

## Left out

- Module start-up (planner/app.py:7-44) is not modelled. That covers `.env` loading, the
  credential check, boto3 client construction and the STS identity printout. It is all
  environment and I/O.
- The `brt.converse` call (planner/app.py:153) and its timeout and retry settings (line 34)
  are a foreign network call. The decoded response is the model's input.
- The FastAPI app, the route and the mapping of errors to HTTP 500 (lines 46, 170-177) are
  HTTP plumbing. The Pydantic models become the `Context` record. Pydantic's own type
  checks are not modelled; the `or` fallbacks of `_payload` are.
- The text of the error messages (lines 157, 160, 166) is not modelled. Errors are
  constructors carrying the tool name or index that the message would print.
- `SYSTEM_PROMPT` and the `EMIT_PLAN_TOOL` schema (lines 48-118) are constant data sent
  to the provider and are never enforced locally. For example, the schema's `run_command`
  takes a `script` field that nothing checks.
- `json.dumps(manifest, indent=2)` is the parameter `serialize`. It receives the manifest as
  a map, without the insertion order of its keys and with every number a real. So two
  manifests that differ only in key order, or only in `1` against `1.0`, give the same
  payload here, though `json.dumps` prints them differently. The modelled payload matches
  `_payload` only up to the manifest's key order and its int/float distinction.
- Strings are sequences of Unicode scalar values, so the 2000-character cut counts code
  points as Python's slice does. A Python str may also hold lone surrogates, which a Dafny
  `char` cannot; such strings are outside the model.
- JSON numbers are reals. The extraction and the guard only ask whether a number is zero,
  so Python's int/float distinction does not change their outcome. It does change the
  manifest text, as the `serialize` line above records.
- When `content` or `actions` is a non-empty dict, Python iterates its keys. The model
  gives the outcome without ordering the keys, because the outcome does not depend on
  their order.
- Nothing else is implemented by this file, so nothing else is modelled. That excludes
  other response shapes (`toolCalls`, top-level `messages`), string-encoded arguments,
  field checks on `create_file` or `run_command`, whitespace trimming and path-safety checks.
