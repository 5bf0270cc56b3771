# Agent toolkit core in Dafny

A Dafny model of the three stateful components of a small agent-support toolkit:

- **Tool dispatch engine** (`Tools`, from `tools/tool_registry.py`). A `Registry` class holds three fields:
  - `order`, the registered names in insertion order;
  - `tools`, the map from name to tool (with `order`, the source's insertion-ordered dict);
  - `usageLog`, the append-only usage log.

  The registry's operations are:
  - registration, where the last write wins;
  - the two-tier, first-match decision of which tool a task needs: keywords first, then the fixed table of category phrases;
  - execution with a presence-only parameter check. A lookup miss, missing parameters and a handler failure all become failed results, and only attempts that reach the handler are logged;
  - filtered listing;
  - usage statistics computed in one pass over the log.
- **Task memory log** (`AgentMemory`, from `agent/memory.py`). A `Memory` class holds a list of entries. Its operations are:
  - append (`Record`) and copy (`GetAll`);
  - filters by status and by task substring;
  - the `entries[-n:]` slice;
  - a status summary;
  - `Clear`.
- **Task planner** (`Planner`, from `agent/planner.py`). A `TaskPlanner` class holds a mutable template table. `Plan` picks one of four built-in templates by ordered keyword groups, and `AddTemplate` updates the table.

Supporting modules:
- `Common` holds `Option`, the order-preserving `Filter` (a list comprehension with a guard), `Count`, and duplicate-freedom of a dict's key order.
- `Text` holds ASCII `Lower` (`str.lower()`) and `Contains` (Python's substring test `in`).

Modelling choices:
- A tool handler is a pure function from the parameter map to `Returned(output)` or `Raised(message)`. Raising an exception is therefore a value.
- Parameter values, handler outputs, recorded results and metadata values are type parameters, because they are untyped in the source.
- The memory log's timestamp is passed in as a parameter instead of read from the clock.

Details of the code that the model keeps:
- The `web` phrase list includes `"scrape"`.
- Required parameters are an ordered list, which may repeat a name. A parameter counts as present whenever its key is in the mapping, whatever its value.
- `select_tool` tests the selected name for truthiness (`if needs_tool and tool_name`). So a tool registered under the empty name can be chosen by `needs_tool`, yet `select_tool` and `execute_if_needed` then report that no tool is needed. `SelectTool` and `ExecuteIfNeeded` model this.

## Model

| member | source | states |
|---|---|---|
| `Text.LowerChar` | tools/tool_registry.py:72 | an ASCII capital becomes a small letter; every other character is unchanged |
| `Text.Lower` | agent/planner.py:22 | `str.lower()`: the same length, each character lower-cased by `LowerChar` |
| `Common.Filter` | agent/memory.py:60 | a guarded list comprehension: at most as long as the input, every kept element satisfies the guard and comes from the input, and every input element satisfying the guard is kept |
| `Common.Count` | agent/memory.py:79-81 | `sum(1 for e in ... if ...)` never exceeds the list length; `Common.CountIsFilterLength` ties it to `Filter` |
| `Tools.ActionPatterns` | tools/tool_registry.py:81-88 | the category phrase table, one entry per category value with the source's phrases; `Tools.EveryCategoryHasPhrases` states its coverage |
| `Tools.KeywordHit` | tools/tool_registry.py:76-77 | rule 1 for one tool: some keyword, lower-cased, occurs in the lower-cased task |
| `Tools.PatternHit` | tools/tool_registry.py:91-94 | rule 2 for one tool: its category is in the phrase table and some phrase of it occurs in the lower-cased task |
| `Tools.FirstFiring` | tools/tool_registry.py:75-78 | the first-match scan over registration order for one rule; `Tools.FirstFiringIsFirst` states what it returns |
| `Tools.ToolError.Text` | tools/tool_registry.py:129 | the three error texts: "Tool '<name>' not found", "Missing required parameters: " followed by the list, and the handler's message |
| `Tools.ListText` | tools/tool_registry.py:140 | a list of names rendered as Python prints it, `['a', 'b']` |
| `Tools.Uses` | tools/tool_registry.py:217-221 | a tool's record count, at most the length of the log |
| `Tools.UseSuccesses` | tools/tool_registry.py:222-223 | a tool's successful records, at most the log's successes |
| `Tools.UseFailures` | tools/tool_registry.py:224-225 | a tool's failed records, at most the log's failures |
| `Tools.FirstSeen` | tools/tool_registry.py:216-220 | the tools of the log in order of first appearance, the key order of `by_tool`; `Tools.FirstSeenSpec` states its keys |
| `Tools.CountsOf` | tools/tool_registry.py:216-225 | a tool's row of the per-tool table: total equals success plus failure, and is at most the log's length |
| `AgentMemory.HasStatus` | agent/memory.py:60 | the entry test of `filter_by_status`: status equality |
| `AgentMemory.TaskMentions` | agent/memory.py:64-65 | the entry test of `filter_by_task`: the lower-cased pattern occurs in the lower-cased task |
| `Planner.AnyIn` | agent/planner.py:25-29 | `any(word in goal_lower for word in ...)`: some word of the group occurs in the lower-cased goal |
| `Tools.EveryCategoryHasPhrases` | tools/tool_registry.py:81-92 | every category's value is a key of the phrase table, with a non-empty phrase list, so the `tool_type in action_patterns` test always passes |
| `Tools.FirstFiringIsFirst` | tools/tool_registry.py:75-78 | a first-match scan over registration order returns a name exactly when some tool fires, and that name is the earliest tool that fires; otherwise no tool fires |
| `Tools.Selection` | tools/tool_registry.py:62-98 | the decision `needs_tool` makes; any name it returns is registered and appears in the insertion order |
| `Tools.KeywordRuleWins` | tools/tool_registry.py:72-78 | if the first tool with a keyword in the lower-cased task is at position i, that tool is selected, whatever the category rule says |
| `Tools.CategoryRuleFallback` | tools/tool_registry.py:80-95 | if no keyword matches, the first tool whose category phrase occurs in the lower-cased task is selected |
| `Tools.NoRuleNoTool` | tools/tool_registry.py:97-98 | if neither rule fires for any tool, the result is "no tool needed" |
| `Tools.KeywordInTaskNeedsTool` | tools/tool_registry.py:72-78 | a registered keyword that occurs in the task, in any letter case, makes the task need a tool |
| `Tools.Missing` | tools/tool_registry.py:135 | the missing names are exactly the required names absent from the parameter keys; the list is empty iff every required name is present. Its body is a `Filter` call, so `Common.FilterAppend` gives the required order |
| `Tools.Execute` | tools/tool_registry.py:114-173 | lookup miss: failure "Tool '<name>' not found" and no record. Missing parameters: failure naming them and no record. Otherwise exactly one record `{tool, params, success, error}` agreeing with the result, with the handler's output on success and its message on failure. A result holds an output iff it succeeded and an error iff it failed |
| `Tools.Registry.constructor` | tools/tool_registry.py:53-55 | a new registry is empty, with an empty log |
| `Tools.Registry.Register` | tools/tool_registry.py:57-60 | the name now maps to the tool and all other entries are unchanged. A new name goes last in the order; a re-registered name keeps its position. The log is untouched and the registry itself is returned |
| `Tools.Registry.NeedsTool` | tools/tool_registry.py:62-98 | the nested first-match loops compute exactly `Selection`; `needed` is true iff a name is returned, and that name is registered |
| `Tools.Registry.SelectTool` | tools/tool_registry.py:100-112 | returns the registered tool filed under the selected name (a tool of that name) iff a non-empty name is selected, otherwise nothing; it changes no state |
| `Tools.Registry.ExecuteTool` | tools/tool_registry.py:114-173 | returns `Execute`'s result and appends exactly `Execute`'s record (none or one) to the log; the tools are unchanged |
| `Tools.Registry.ExecuteIfNeeded` | tools/tool_registry.py:175-191 | with no (non-empty) selection it returns "nothing executed" and leaves the log unchanged; otherwise it runs the selected registered tool with the given parameters, as `Execute` describes |
| `Tools.InOrder` | tools/tool_registry.py:204 | the registered tools listed in insertion order, the i-th being the tool registered under the i-th name |
| `Tools.ListingCoversRegistry` | tools/tool_registry.py:204 | on a well-formed registry the listing holds as many tools as registered names, each filed under its own name, and every registered tool appears in it |
| `Tools.Registry.ListTools` | tools/tool_registry.py:193-206 | without a filter, as many tools as distinct registered names. Every listed tool is registered under its own name and has the requested category. Every registered tool of that category is listed |
| `Tools.Successes` | tools/tool_registry.py:214 | the success count never exceeds the number of records |
| `Tools.FirstSeenSpec` | tools/tool_registry.py:216-220 | the per-tool table's keys: each tool with a record appears exactly once |
| `Tools.UsesSplit` | tools/tool_registry.py:221-225 | each tool's record count equals its successes plus its failures |
| `Tools.PerToolTotalsSum` | tools/tool_registry.py:216-232 | the per-tool record counts, summed over the tools of the log, equal the log's length |
| `Tools.Registry.GetUsageStats` | tools/tool_registry.py:208-232 | all zeros and an empty table on an empty log. Otherwise `total` is the log's length, `total == success + failure`, each tool has a row exactly when it has a record, each row counts that tool's records, successes and failures, each row's total is its success plus failure, and the row totals sum to `total` |
| `Common.FilterAppend` | agent/memory.py:58-60 | filtering distributes over concatenation, so filters keep recorded order |
| `Common.FilterAllOrNothing` | agent/memory.py:62-65 | a filter that keeps every element returns the list unchanged; one that keeps none returns the empty list |
| `Common.CountIsFilterLength` | agent/memory.py:77-82 | `sum(1 for e if ...)` equals the length of the matching filter |
| `Common.NoDupCardinality` | tools/tool_registry.py:54-59 | a key order without repeats has as many names as the set of registered names |
| `Text.Contains` | tools/tool_registry.py:77 | Python's `needle in haystack`: true iff some window of the haystack spells the needle |
| `Text.LowerIdempotent` | agent/planner.py:22 | lower-casing twice is lower-casing once |
| `Text.LowerPreservesContains` | tools/tool_registry.py:72-77 | a substring is still a substring after both sides are lower-cased |
| `Text.EmptyContained` | agent/memory.py:64-65 | the empty pattern occurs in every task |
| `AgentMemory.Memory.constructor` | agent/memory.py:25-26 | a new log is empty |
| `AgentMemory.Memory.Record` | agent/memory.py:28-52 | appends exactly the entry built from the arguments, leaves earlier entries unchanged and returns the entry. Each status filter grows by that entry when the status matches and is otherwise unchanged |
| `AgentMemory.Memory.GetAll` | agent/memory.py:54-56 | returns a sequence equal to the entries, of the summary's total length. Later appends to or clearing of the log do not change it; the entries themselves are values here (see Left out) |
| `AgentMemory.Memory.FilterByStatus` | agent/memory.py:58-60 | exactly the entries with that status, as many as the status count. Its body is a `Filter` call, so `Common.FilterAppend` gives recorded order |
| `AgentMemory.Memory.FilterByTask` | agent/memory.py:62-65 | exactly the entries whose lower-cased task contains the lower-cased pattern. A verbatim occurrence always matches, and the empty pattern returns every entry. Its body is a `Filter` call, so `Common.FilterAppend` gives recorded order |
| `AgentMemory.SliceStart` | agent/memory.py:69 | Python's slice-start rule always gives a position inside the list |
| `AgentMemory.Memory.GetRecent` | agent/memory.py:67-69 | `entries[-n:]`. For `0 < n` it gives the last `min(n, len)` entries, and all entries once `n >= len`. For `n == 0` it gives all entries. For negative `n` it gives all but the first `-n` entries |
| `AgentMemory.StatusCountsBounded` | agent/memory.py:77-82 | the completed, failed and started counts sum to at most the number of entries |
| `AgentMemory.FilterByStatusAppend` | agent/memory.py:51 | appending an entry extends a status filter by exactly that entry when the status matches |
| `AgentMemory.Memory.GetSummary` | agent/memory.py:71-82 | `total` is the number of entries. `completed`, `failed` and `started` are the sizes of the matching status filters, and their sum is at most `total`. An empty log gives all zeros |
| `AgentMemory.Memory.Clear` | agent/memory.py:84-86 | no entries remain and the summary is all zeros |
| `AgentMemory.LastN` | agent/memory.py:67-68 | the intended "n most recent entries": `min(n, len)` entries, a suffix of the log, none for `n == 0` |
| `AgentMemory.RecentZeroReturnsEverything` | agent/memory.py:67-69 | on a non-empty log `get_recent(0)` returns every entry, not the none that `LastN` gives |
| `AgentMemory.RecentAgreesForPositive` | agent/memory.py:67-69 | for every positive `n`, the slice as written equals `LastN` |
| `Planner.TemplateName` | agent/planner.py:22-32 | the selected template is always one of the four built-in names. It is `research` iff a research word occurs in the lower-cased goal; `project` iff no research word but a project word occurs; `learning` iff neither of those but a learning word occurs; `default` iff no word of any group occurs |
| `Planner.TemplateNameIgnoresCase` | agent/planner.py:22 | a goal and its lower-cased form select the same template |
| `Planner.WordSelectsTemplate` | agent/planner.py:25-32 | a group word written into the goal in any letter case selects that group's template unless an earlier group also matches, and such a goal never gets the default template |
| `Planner.Contextualize` | agent/planner.py:35 | one step per template entry, entry i being `template[i] + ": " + goal` |
| `Planner.TaskPlanner.constructor` | agent/planner.py:4-10 | the four built-in templates, with 3, 4, 4 and 4 steps |
| `Planner.TaskPlanner.Plan` | agent/planner.py:12-35 | the plan has the selected template's length, and step i is that template's step i followed by ": " and the original, un-lowered goal; it changes no state |
| `Planner.TaskPlanner.AddTemplate` | agent/planner.py:37-39 | the name maps to the new steps and every other name is unchanged. A plan whose goal selects another template is unchanged, and a plan whose goal selects this name uses the new steps |
| `Planner.PlanReadsOnlyBuiltIns` | agent/planner.py:25-32 | planners that agree on the four built-in templates give the same plan for every goal |
| `Planner.CustomTemplateNeverSelected` | agent/planner.py:60-62 | a template under any other name, such as `writing`, is never selected |

## Left out

- The example handlers (`web_fetch_handler`, `file_read_handler`, `calculate_handler`, `data_transform_handler`) are not modelled: they use `eval` and caller-supplied callables. A handler here is an arbitrary pure function.
- The `__main__` demonstrations in all three files print to the console and are not modelled.
- `Memory.export_json` and `Memory.import_json` do file I/O and JSON encoding and are not modelled.
- The clock read in `record` is a parameter.
- `llm/llm_client.py` is not part of this model: it wraps a third-party inference pipeline, with float timing and sleeps.
- `observability/logger.py` is not part of this model: it wraps a logging facility and float timers.
- `ToolResult.__repr__` is not modelled.
- The rendering of the missing-parameter list follows Python's `repr` only for names without quotes, backslashes or non-printable characters.
- `Text.Lower`: lower-cases ASCII letters only, because Unicode case mapping is out of scope.
- `Tools.Registry.ExecuteTool`: the logged parameters are a value snapshot. In the source the record holds a reference to the caller's dict, so a later change to that dict shows up in the log.
- `AgentMemory.Memory.Record`: the returned entry is a value. In the source it is the very object stored in the log, so a caller that later sets `entry.status` changes what `filter_by_status` and `get_summary` report; the model does not capture that aliasing.
- `AgentMemory.Memory.GetAll`: the copy is shallow in the source, as are the lists `filter_by_status`, `filter_by_task` and `get_recent` return. They share the mutable entry objects with the log, so a change made through one shows up in the other. The model's entries are values and it does not capture that sharing.
- `Planner.TaskPlanner.AddTemplate`: the source stores the caller's list itself, so a later change to that list changes the template. The model stores a value and does not capture that aliasing.
- `Tools.Registry.Register`: the source stores the caller's `Tool` object. A later change to its `keywords`, `type` or `required_params` would change selection and validation; the model stores a value and does not capture that aliasing.
- `Tools.Registry.Register`: a tool's `name` is treated as fixed once registered. The source's mutable dataclass would let a caller rename a registered tool, breaking the key/name agreement that `Tools.WellFormed` keeps.
- The model does not capture a handler that hangs or has side effects; handlers are total and pure here.

## Findings

| source | as written | input that shows it | evidently intended | confidence | as-written member | corrected member |
|---|---|---|---|---|---|---|
| agent/memory.py:67-69 | `get_recent(n)` returns `entries[-n:]`. For `n == 0` that is the whole log, because `-0` is the slice start 0; a negative `n` drops the oldest `-n` entries | a log with one entry and `n = 0`: the one entry comes back | the `n` most recent entries, so none for `n == 0` | medium, not executed | `AgentMemory.RecentZeroReturnsEverything` | `AgentMemory.LastN` |
