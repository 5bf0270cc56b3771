/** The tool dispatch engine: a registry of tools kept in registration order,
    a two-tier first-match rule that decides which tool (if any) a task needs,
    execution with presence-only parameter validation and failure capture,
    an append-only usage log, and statistics folded over that log.

    Parameter values (`V`) and handler outputs (`O`) are arbitrary, as in the
    untyped source; a handler is a pure function whose raised exception is
    the value `Raised(message)`. */
module Tools {
  import opened Common
  import opened Text

  // ---------------------------------------------------------------------------
  // Data model
  // ---------------------------------------------------------------------------

  /** The six tool categories. */
  datatype ToolType = Web | File | Data | Calculation | Communication | System {
    /** The category's enumeration value, the key of the phrase table. */
    function Value(): string {
      match this
      case Web => "web"
      case File => "file"
      case Data => "data"
      case Calculation => "calculation"
      case Communication => "communication"
      case System => "system"
    }
  }

  /** The parameter mapping passed to a tool. */
  type Params<V> = map<string, V>

  /** What a handler does with its parameters: return an output or raise with a message. */
  datatype Outcome<O> = Returned(output: O) | Raised(message: string)

  /** A tool descriptor. `kind` is the source's `type` field; a missing
      `required_params` list is the empty list. */
  datatype Tool<!V, O> = Tool(
    name: string,
    kind: ToolType,
    description: string,
    handler: Params<V> -> Outcome<O>,
    keywords: seq<string>,
    requiredParams: seq<string>)

  /** The outcome of one execution attempt. */
  datatype ToolResult<O> = ToolResult(toolName: string, success: bool, output: Option<O>, error: Option<string>)

  /** One entry of the usage log: `{tool, params, success}` and, on handler failure, `error`. */
  datatype UsageRecord<V> = UsageRecord(tool: string, params: Params<V>, success: bool, error: Option<string>)

  /** The three ways an execution attempt can fail, and the error text each one carries. */
  datatype ToolError = NotFound(name: string) | MissingParams(names: seq<string>) | HandlerFailed(message: string) {
    function Text(): string {
      match this
      case NotFound(n) => "Tool '" + n + "' not found"
      case MissingParams(ns) => "Missing required parameters: " + ListText(ns)
      case HandlerFailed(m) => m
    }
  }

  /** How a list of names is printed: `['a', 'b']`. */
  function ListText(names: seq<string>): string {
    "[" + QuotedList(names) + "]"
  }

  function QuotedList(names: seq<string>): string {
    if names == [] then ""
    else if |names| == 1 then "'" + names[0] + "'"
    else "'" + names[0] + "', " + QuotedList(names[1..])
  }

  // ---------------------------------------------------------------------------
  // Selection rules
  // ---------------------------------------------------------------------------

  /** The built-in action phrases of each category, keyed by the category's value. */
  function ActionPatterns(): map<string, seq<string>> {
    map[
      "web" := ["fetch", "download", "scrape", "get url", "http", "api call"],
      "file" := ["read file", "write file", "save to", "load from", "open file"],
      "data" := ["parse", "transform", "filter", "aggregate", "sort"],
      "calculation" := ["calculate", "compute", "sum", "average", "count"],
      "communication" := ["send email", "notify", "message", "alert"],
      "system" := ["execute", "run command", "shell", "process"]
    ]
  }

  /** Every category has an entry in the phrase table, so the table lookup never misses. */
  lemma EveryCategoryHasPhrases(t: ToolType)
    ensures t.Value() in ActionPatterns()
    ensures |ActionPatterns()[t.Value()]| > 0
  {
  }

  /** Rule 1 fires for `tool`: one of its keywords, lower-cased, occurs in the lower-cased task. */
  predicate KeywordHit<V, O>(tool: Tool<V, O>, taskLower: string) {
    exists k :: 0 <= k < |tool.keywords| && Contains(Lower(tool.keywords[k]), taskLower)
  }

  /** Rule 2 fires for `tool`: a phrase of its category occurs in the lower-cased task. */
  predicate PatternHit<V, O>(tool: Tool<V, O>, taskLower: string) {
    var tv := tool.kind.Value();
    tv in ActionPatterns() &&
    exists k :: 0 <= k < |ActionPatterns()[tv]| && Contains(ActionPatterns()[tv][k], taskLower)
  }

  datatype Rule = KeywordRule | PatternRule

  predicate Fires<V, O>(rule: Rule, tool: Tool<V, O>, taskLower: string) {
    match rule
    case KeywordRule => KeywordHit(tool, taskLower)
    case PatternRule => PatternHit(tool, taskLower)
  }

  /** Every listed name is registered. */
  ghost predicate AllRegistered<V, O>(names: seq<string>, tools: map<string, Tool<V, O>>) {
    forall i :: 0 <= i < |names| ==> names[i] in tools
  }

  /** The first name in `names`, from position `from` on, whose tool `rule` fires for, if any. */
  ghost function FirstFiring<V, O>(names: seq<string>, tools: map<string, Tool<V, O>>, rule: Rule, taskLower: string, from: nat): Option<string>
    requires AllRegistered(names, tools)
    decreases |names| - from
  {
    if from >= |names| then None
    else if Fires(rule, tools[names[from]], taskLower) then Some(names[from])
    else FirstFiring(names, tools, rule, taskLower, from + 1)
  }

  /** `FirstFiring` finds a name exactly when the rule fires for some listed
      tool at or after `from`, and then it is the earliest such name. */
  lemma {:induction false} FirstFiringIsFirst<V, O>(names: seq<string>, tools: map<string, Tool<V, O>>, rule: Rule, taskLower: string, from: nat)
    requires AllRegistered(names, tools)
    ensures var r := FirstFiring(names, tools, rule, taskLower, from);
      && (r.Some? ==>
        exists i :: from <= i < |names| && names[i] == r.value && Fires(rule, tools[names[i]], taskLower) &&
          forall k :: from <= k < i ==> !Fires(rule, tools[names[k]], taskLower))
      && (r.None? <==> forall k :: from <= k < |names| ==> !Fires(rule, tools[names[k]], taskLower))
    decreases |names| - from
  {
    if from < |names| && !Fires(rule, tools[names[from]], taskLower) {
      FirstFiringIsFirst(names, tools, rule, taskLower, from + 1);
    }
  }

  /** The decision `needs_tool` makes: the first tool whose keyword rule fires,
      else the first tool whose category rule fires, else nothing. */
  ghost function Selection<V, O>(order: seq<string>, tools: map<string, Tool<V, O>>, task: string): (r: Option<string>)
    requires AllRegistered(order, tools)
    ensures r.Some? ==> r.value in order && r.value in tools
  {
    var low := Lower(task);
    FirstFiringIsFirst(order, tools, KeywordRule, low, 0);
    FirstFiringIsFirst(order, tools, PatternRule, low, 0);
    match FirstFiring(order, tools, KeywordRule, low, 0)
    case Some(n) => Some(n)
    case None => FirstFiring(order, tools, PatternRule, low, 0)
  }

  /** When some tool's keyword occurs in the task, the first such tool in
      registration order is selected, whatever the category rule would say. */
  lemma KeywordRuleWins<V, O>(order: seq<string>, tools: map<string, Tool<V, O>>, task: string, i: int)
    requires AllRegistered(order, tools)
    requires 0 <= i < |order| && KeywordHit(tools[order[i]], Lower(task))
    requires forall k :: 0 <= k < i ==> !KeywordHit(tools[order[k]], Lower(task))
    ensures Selection(order, tools, task) == Some(order[i])
  {
    var low := Lower(task);
    assert Fires(KeywordRule, tools[order[i]], low);
    FirstFiringIsFirst(order, tools, KeywordRule, low, 0);
    var r := FirstFiring(order, tools, KeywordRule, low, 0);
    var j :| 0 <= j < |order| && order[j] == r.value && Fires(KeywordRule, tools[order[j]], low) &&
      forall k :: 0 <= k < j ==> !Fires(KeywordRule, tools[order[k]], low);
  }

  /** When no keyword occurs in the task, the first tool whose category phrase
      occurs is selected. */
  lemma CategoryRuleFallback<V, O>(order: seq<string>, tools: map<string, Tool<V, O>>, task: string, i: int)
    requires AllRegistered(order, tools)
    requires forall k :: 0 <= k < |order| ==> !KeywordHit(tools[order[k]], Lower(task))
    requires 0 <= i < |order| && PatternHit(tools[order[i]], Lower(task))
    requires forall k :: 0 <= k < i ==> !PatternHit(tools[order[k]], Lower(task))
    ensures Selection(order, tools, task) == Some(order[i])
  {
    var low := Lower(task);
    assert forall k :: 0 <= k < |order| ==> !Fires(KeywordRule, tools[order[k]], low);
    assert Fires(PatternRule, tools[order[i]], low);
    FirstFiringIsFirst(order, tools, KeywordRule, low, 0);
    FirstFiringIsFirst(order, tools, PatternRule, low, 0);
    var r := FirstFiring(order, tools, PatternRule, low, 0);
    var j :| 0 <= j < |order| && order[j] == r.value && Fires(PatternRule, tools[order[j]], low) &&
      forall k :: 0 <= k < j ==> !Fires(PatternRule, tools[order[k]], low);
  }

  /** When neither rule fires for any tool, no tool is needed. */
  lemma NoRuleNoTool<V, O>(order: seq<string>, tools: map<string, Tool<V, O>>, task: string)
    requires AllRegistered(order, tools)
    requires forall k :: 0 <= k < |order| ==> !KeywordHit(tools[order[k]], Lower(task))
    requires forall k :: 0 <= k < |order| ==> !PatternHit(tools[order[k]], Lower(task))
    ensures Selection(order, tools, task) == None
  {
    var low := Lower(task);
    assert forall k :: 0 <= k < |order| ==> !Fires(KeywordRule, tools[order[k]], low);
    assert forall k :: 0 <= k < |order| ==> !Fires(PatternRule, tools[order[k]], low);
    FirstFiringIsFirst(order, tools, KeywordRule, low, 0);
    FirstFiringIsFirst(order, tools, PatternRule, low, 0);
  }

  /** Keyword matching is case-insensitive: a registered keyword written into
      the task in any letter case makes the task need a tool. */
  lemma KeywordInTaskNeedsTool<V, O>(order: seq<string>, tools: map<string, Tool<V, O>>, task: string, i: int, k: int)
    requires AllRegistered(order, tools)
    requires 0 <= i < |order| && 0 <= k < |tools[order[i]].keywords|
    requires Contains(Lower(tools[order[i]].keywords[k]), Lower(task))
    ensures Selection(order, tools, task).Some?
  {
    var low := Lower(task);
    assert Fires(KeywordRule, tools[order[i]], low);
    FirstFiringIsFirst(order, tools, KeywordRule, low, 0);
  }

  // ---------------------------------------------------------------------------
  // Execution
  // ---------------------------------------------------------------------------

  /** The required parameters absent from `params`, in the order they are required. */
  function Missing<V>(required: seq<string>, params: Params<V>): (r: seq<string>)
    ensures forall i :: 0 <= i < |r| ==> r[i] in required && r[i] !in params
    ensures forall i :: 0 <= i < |required| && required[i] !in params ==> required[i] in r
    ensures r == [] <==> forall i :: 0 <= i < |required| ==> required[i] in params
  {
    var r := Filter(required, (p: string) => p !in params);
    assert r != [] ==> r[0] in required && r[0] !in params;
    r
  }

  /** What one execution attempt returns and the usage record it writes, if any. */
  datatype Execution<V, O> = Execution(result: ToolResult<O>, record: Option<UsageRecord<V>>)

  /** Executing `name` with `params` against the registered `tools`. */
  function Execute<V, O>(tools: map<string, Tool<V, O>>, name: string, params: Params<V>): (e: Execution<V, O>)
    // a lookup miss fails with "Tool '<name>' not found" and writes no record
    ensures name !in tools ==>
      e == Execution(ToolResult(name, false, None, Some(NotFound(name).Text())), None)
    // missing parameters fail with the list of missing names, and write no record
    ensures name in tools && Missing(tools[name].requiredParams, params) != [] ==>
      e == Execution(ToolResult(name, false, None, Some(MissingParams(Missing(tools[name].requiredParams, params)).Text())), None)
    // exactly the attempts that reach the handler write one record
    ensures e.record.Some? <==> name in tools && forall i :: 0 <= i < |tools[name].requiredParams| ==> tools[name].requiredParams[i] in params
    ensures e.record.Some? ==>
      e.record.value == UsageRecord(name, params, e.result.success, e.result.error) &&
      match tools[name].handler(params)
      case Returned(out) => e.result == ToolResult(name, true, Some(out), None)
      case Raised(msg) => e.result == ToolResult(name, false, None, Some(msg))
    // a result carries an output exactly when it succeeded, and an error exactly when it failed
    ensures e.result.toolName == name
    ensures e.result.success <==> e.result.output.Some?
    ensures e.result.success <==> e.result.error.None?
  {
    if name !in tools then
      Execution(ToolResult(name, false, None, Some(NotFound(name).Text())), None)
    else
      var tool := tools[name];
      var missing := Missing(tool.requiredParams, params);
      if missing != [] then
        Execution(ToolResult(name, false, None, Some(MissingParams(missing).Text())), None)
      else
        match tool.handler(params)
        case Returned(out) =>
          Execution(ToolResult(name, true, Some(out), None), Some(UsageRecord(name, params, true, None)))
        case Raised(msg) =>
          var err := HandlerFailed(msg).Text();
          Execution(ToolResult(name, false, None, Some(err)), Some(UsageRecord(name, params, false, Some(err))))
  }

  /** The records an execution appends to the log: none or one. */
  function Appended<V>(record: Option<UsageRecord<V>>): (s: seq<UsageRecord<V>>)
    ensures |s| <= 1
    ensures record.Some? <==> |s| == 1
  {
    match record
    case None => []
    case Some(r) => [r]
  }

  // ---------------------------------------------------------------------------
  // Usage statistics
  // ---------------------------------------------------------------------------

  /** Per-tool counters. */
  datatype Counts = Counts(total: nat, success: nat, failure: nat)

  /** The statistics summary; `toolOrder` is the key order of the per-tool table. */
  datatype UsageStats = UsageStats(total: nat, success: nat, failure: nat, byTool: map<string, Counts>, toolOrder: seq<string>)

  /** The number of successful records. */
  function Successes<V>(log: seq<UsageRecord<V>>): (n: nat)
    ensures n <= |log|
  {
    if log == [] then 0
    else Successes(log[..|log| - 1]) + (if log[|log| - 1].success then 1 else 0)
  }

  /** The number of records of tool `name`. */
  function Uses<V>(log: seq<UsageRecord<V>>, name: string): (n: nat)
    ensures n <= |log|
  {
    if log == [] then 0
    else Uses(log[..|log| - 1], name) + (if log[|log| - 1].tool == name then 1 else 0)
  }

  /** The number of successful records of tool `name`. */
  function UseSuccesses<V>(log: seq<UsageRecord<V>>, name: string): (n: nat)
    ensures n <= Successes(log)
  {
    if log == [] then 0
    else UseSuccesses(log[..|log| - 1], name) + (if log[|log| - 1].tool == name && log[|log| - 1].success then 1 else 0)
  }

  /** The number of failed records of tool `name`. */
  function UseFailures<V>(log: seq<UsageRecord<V>>, name: string): (n: nat)
    ensures n <= |log| - Successes(log)
  {
    if log == [] then 0
    else UseFailures(log[..|log| - 1], name) + (if log[|log| - 1].tool == name && !log[|log| - 1].success then 1 else 0)
  }

  /** The tools of the log in order of first appearance (the key order of the per-tool table). */
  function FirstSeen<V>(log: seq<UsageRecord<V>>): seq<string> {
    if log == [] then []
    else
      var before := FirstSeen(log[..|log| - 1]);
      var last := log[|log| - 1].tool;
      if last in before then before else before + [last]
  }

  /** Each tool with a record in the log appears in `FirstSeen` exactly once, and no other name does. */
  lemma {:induction false} FirstSeenSpec<V>(log: seq<UsageRecord<V>>)
    ensures NoDup(FirstSeen(log))
    ensures forall n :: n in FirstSeen(log) <==> exists i :: 0 <= i < |log| && log[i].tool == n
  {
    if log != [] {
      var init := log[..|log| - 1];
      FirstSeenSpec(init);
      assert forall i :: 0 <= i < |init| ==> init[i] == log[i];
    }
  }

  /** Each tool's record count splits into its successes and its failures. */
  lemma {:induction false} UsesSplit<V>(log: seq<UsageRecord<V>>, name: string)
    ensures Uses(log, name) == UseSuccesses(log, name) + UseFailures(log, name)
  {
    if log != [] {
      UsesSplit(log[..|log| - 1], name);
    }
  }

  /** A tool that has no record in the log has a count of zero. */
  lemma {:induction false} UsesOfAbsent<V>(log: seq<UsageRecord<V>>, name: string)
    requires forall i :: 0 <= i < |log| ==> log[i].tool != name
    ensures Uses(log, name) == 0
  {
    if log != [] {
      var init := log[..|log| - 1];
      assert forall i :: 0 <= i < |init| ==> init[i] == log[i];
      UsesOfAbsent(init, name);
    }
  }

  /** The sum of the record counts of the tools in `names`. */
  function SumUses<V>(names: seq<string>, log: seq<UsageRecord<V>>): nat {
    if names == [] then 0
    else SumUses(names[..|names| - 1], log) + Uses(log, names[|names| - 1])
  }

  /** Appending a record adds one to the summed counts when its tool is listed. */
  lemma {:induction false} SumUsesAppend<V>(names: seq<string>, log: seq<UsageRecord<V>>, rec: UsageRecord<V>)
    requires NoDup(names)
    ensures SumUses(names, log + [rec]) == SumUses(names, log) + (if rec.tool in names then 1 else 0)
  {
    var log' := log + [rec];
    assert log'[..|log'| - 1] == log;
    if names != [] {
      var init := names[..|names| - 1];
      var last := names[|names| - 1];
      assert NoDup(init);
      assert rec.tool in names <==> rec.tool in init || rec.tool == last;
      assert last !in init;
      SumUsesAppend(init, log, rec);
    }
  }

  /** Summed over the tools of the log, the per-tool record counts add up to the log's length. */
  lemma {:induction false} PerToolTotalsSum<V>(log: seq<UsageRecord<V>>)
    ensures SumUses(FirstSeen(log), log) == |log|
  {
    if log != [] {
      var init := log[..|log| - 1];
      var rec := log[|log| - 1];
      assert log == init + [rec];
      var before := FirstSeen(init);
      FirstSeenSpec(init);
      PerToolTotalsSum(init);
      SumUsesAppend(before, init, rec);
      if rec.tool !in before {
        assert forall i :: 0 <= i < |init| ==> init[i].tool != rec.tool;
        UsesOfAbsent(init, rec.tool);
        assert FirstSeen(log) == before + [rec.tool];
        assert (before + [rec.tool])[..|before|] == before;
      }
    }
  }

  /** The sum of the per-tool totals a statistics table reports for `names`. */
  function SumTotals(names: seq<string>, byTool: map<string, Counts>): nat
    requires forall i :: 0 <= i < |names| ==> names[i] in byTool
  {
    if names == [] then 0
    else SumTotals(names[..|names| - 1], byTool) + byTool[names[|names| - 1]].total
  }

  /** A table whose totals are the log's per-tool counts sums like those counts. */
  lemma {:induction false} SumTotalsIsSumUses<V>(names: seq<string>, byTool: map<string, Counts>, log: seq<UsageRecord<V>>)
    requires forall i :: 0 <= i < |names| ==> names[i] in byTool && byTool[names[i]].total == Uses(log, names[i])
    ensures SumTotals(names, byTool) == SumUses(names, log)
  {
    if names != [] {
      SumTotalsIsSumUses(names[..|names| - 1], byTool, log);
    }
  }

  // ---------------------------------------------------------------------------
  // The registry
  // ---------------------------------------------------------------------------

  /** The registry's invariant on its state: the order lists every registered
      name exactly once, and every tool is filed under its own name. */
  ghost predicate WellFormed<V, O>(order: seq<string>, tools: map<string, Tool<V, O>>) {
    && NoDup(order)
    && (forall n :: n in order <==> n in tools)
    && (forall n :: n in tools ==> tools[n].name == n)
  }

  /** The registered tools in registration order: `self.tools.values()`. */
  function InOrder<V, O>(order: seq<string>, tools: map<string, Tool<V, O>>): (ts: seq<Tool<V, O>>)
    requires AllRegistered(order, tools)
    ensures |ts| == |order|
    ensures forall i :: 0 <= i < |order| ==> ts[i] == tools[order[i]]
  {
    seq(|order|, i requires 0 <= i < |order| => tools[order[i]])
  }

  /** Listing a well-formed registry yields one tool per registered name,
      each filed under its own name. */
  lemma ListingCoversRegistry<V, O>(order: seq<string>, tools: map<string, Tool<V, O>>)
    requires WellFormed(order, tools)
    ensures AllRegistered(order, tools)
    ensures |InOrder(order, tools)| == |tools|
    ensures forall t :: t in InOrder(order, tools) ==> t.name in tools && tools[t.name] == t
    ensures forall n :: n in tools ==> tools[n] in InOrder(order, tools)
  {
    assert AllRegistered(order, tools);
    var all := InOrder(order, tools);
    forall n | n in tools
      ensures tools[n] in all
    {
      var i :| 0 <= i < |order| && order[i] == n;
      assert all[i] == tools[n];
    }
    NoDupCardinality(order, tools.Keys);
  }

  class Registry<!V, O> {
    /** The registered names in insertion order (the key order of the source's dict). */
    var order: seq<string>
    /** The registered tools by name. */
    var tools: map<string, Tool<V, O>>
    /** The append-only usage log. */
    var usageLog: seq<UsageRecord<V>>

    /** The order lists every registered name exactly once, and every tool is
        filed under its own name. */
    ghost predicate Valid()
      reads this
    {
      WellFormed(order, tools)
    }

    constructor ()
      ensures Valid()
      ensures order == [] && tools == map[] && usageLog == []
    {
      order := [];
      tools := map[];
      usageLog := [];
    }

    /** Files `tool` under its name, replacing a tool of the same name in place
        (last write wins); returns the registry itself for chaining. */
    method Register(tool: Tool<V, O>) returns (self: Registry<V, O>)
      requires Valid()
      modifies this`order, this`tools
      ensures Valid() && self == this
      ensures tools == old(tools)[tool.name := tool]
      ensures order == if tool.name in old(tools) then old(order) else old(order) + [tool.name]
    {
      if tool.name !in tools {
        order := order + [tool.name];
      }
      tools := tools[tool.name := tool];
      self := this;
    }

    /** The two-tier first-match decision: rule 1 scans every tool's keywords,
        rule 2 every tool's category phrases, both in registration order. */
    method NeedsTool(task: string) returns (needed: bool, name: Option<string>)
      requires Valid()
      ensures name == Selection(order, tools, task)
      ensures needed <==> name.Some?
      ensures name.Some? ==> name.value in tools
    {
      var low := Lower(task);
      assert AllRegistered(order, tools);
      // Rule 1: keywords
      var i := 0;
      while i < |order|
        invariant 0 <= i <= |order|
        invariant FirstFiring(order, tools, KeywordRule, low, 0) == FirstFiring(order, tools, KeywordRule, low, i)
      {
        var tool := tools[order[i]];
        var j := 0;
        while j < |tool.keywords|
          invariant 0 <= j <= |tool.keywords|
          invariant forall k :: 0 <= k < j ==> !Contains(Lower(tool.keywords[k]), low)
        {
          if Contains(Lower(tool.keywords[j]), low) {
            assert Fires(KeywordRule, tool, low);
            return true, Some(order[i]);
          }
          j := j + 1;
        }
        i := i + 1;
      }
      assert FirstFiring(order, tools, KeywordRule, low, 0) == None;
      // Rule 2: category phrases
      i := 0;
      while i < |order|
        invariant 0 <= i <= |order|
        invariant FirstFiring(order, tools, PatternRule, low, 0) == FirstFiring(order, tools, PatternRule, low, i)
      {
        var tool := tools[order[i]];
        var tv := tool.kind.Value();
        if tv in ActionPatterns() {
          var patterns := ActionPatterns()[tv];
          var j := 0;
          while j < |patterns|
            invariant 0 <= j <= |patterns|
            invariant forall k :: 0 <= k < j ==> !Contains(patterns[k], low)
          {
            if Contains(patterns[j], low) {
              assert Fires(PatternRule, tool, low);
              return true, Some(order[i]);
            }
            j := j + 1;
          }
        }
        i := i + 1;
      }
      // Rule 3: no tool needed
      return false, None;
    }

    /** The tool `NeedsTool` picks, or nothing. A pick whose name is the empty
        string is treated as no pick, because the source tests the name's truthiness. */
    method SelectTool(task: string) returns (t: Option<Tool<V, O>>)
      requires Valid()
      ensures var s := Selection(order, tools, task);
        && (t.Some? <==> s.Some? && s.value != "")
        && (t.Some? ==> s.value in tools && t.value == tools[s.value] && t.value.name == s.value)
    {
      var needed, name := NeedsTool(task);
      if needed && name.Some? && name.value != "" {
        return if name.value in tools then Some(tools[name.value]) else None;
      }
      return None;
    }

    /** Runs the named tool: lookup, parameter check, then the handler; only
        an attempt that reaches the handler is logged, and no failure escapes. */
    method ExecuteTool(name: string, params: Params<V>) returns (r: ToolResult<O>)
      modifies this`usageLog
      ensures r == Execute(tools, name, params).result
      ensures usageLog == old(usageLog) + Appended(Execute(tools, name, params).record)
    {
      if name !in tools {
        return ToolResult(name, false, None, Some(NotFound(name).Text()));
      }
      var tool := tools[name];
      var missing := Missing(tool.requiredParams, params);
      if missing != [] {
        return ToolResult(name, false, None, Some(MissingParams(missing).Text()));
      }
      match tool.handler(params)
      case Returned(out) =>
        usageLog := usageLog + [UsageRecord(name, params, true, None)];
        return ToolResult(name, true, Some(out), None);
      case Raised(msg) =>
        var err := HandlerFailed(msg).Text();
        usageLog := usageLog + [UsageRecord(name, params, false, Some(err))];
        return ToolResult(name, false, None, Some(err));
    }

    /** Selects a tool for the task and runs it, or reports that none was
        needed (`None`) without touching the log. */
    method ExecuteIfNeeded(task: string, params: Params<V>) returns (r: Option<ToolResult<O>>)
      requires Valid()
      modifies this`usageLog
      ensures Valid()
      ensures var s := Selection(order, tools, task);
        if s.Some? && s.value != "" then
          && s.value in tools
          && r == Some(Execute(tools, s.value, params).result)
          && usageLog == old(usageLog) + Appended(Execute(tools, s.value, params).record)
        else
          r == None && usageLog == old(usageLog)
    {
      var tool := SelectTool(task);
      if tool.None? {
        return None;
      }
      var result := ExecuteTool(tool.value.name, params);
      return Some(result);
    }

    /** All registered tools, or those of one category, in registration order. */
    function ListTools(kind: Option<ToolType> := None): (ts: seq<Tool<V, O>>)
      reads this
      requires Valid()
      ensures kind.None? ==> |ts| == |tools|
      ensures forall i :: 0 <= i < |ts| ==>
        ts[i].name in tools && tools[ts[i].name] == ts[i] && (kind.Some? ==> ts[i].kind == kind.value)
      ensures forall n :: n in tools && (kind.None? || tools[n].kind == kind.value) ==> tools[n] in ts
    {
      ListingCoversRegistry(order, tools);
      match kind
      case None => InOrder(order, tools)
      case Some(k) => Filter(InOrder(order, tools), (t: Tool<V, O>) => t.kind == k)
    }

    /** Counts of all, successful and failed executions, overall and per tool,
        folded over the usage log in one pass. */
    method GetUsageStats() returns (st: UsageStats)
      ensures |usageLog| == 0 ==> st == UsageStats(0, 0, 0, map[], [])
      ensures st.total == |usageLog|
      ensures st.success == Successes(usageLog)
      ensures st.total == st.success + st.failure
      ensures st.toolOrder == FirstSeen(usageLog)
      ensures forall n :: n in st.byTool <==> n in st.toolOrder
      ensures forall n :: n in st.byTool ==> st.byTool[n] == CountsOf(usageLog, n)
      ensures forall n :: n in st.byTool ==> st.byTool[n].total == st.byTool[n].success + st.byTool[n].failure
      ensures SumTotals(st.toolOrder, st.byTool) == st.total
    {
      var log := usageLog;
      var total := |log|;
      if total == 0 {
        return UsageStats(0, 0, 0, map[], []);
      }
      var successCount := Successes(log);
      var byTool: map<string, Counts> := map[];
      var seen: seq<string> := [];
      var i := 0;
      while i < |log|
        invariant 0 <= i <= |log|
        invariant seen == FirstSeen(log[..i])
        invariant forall n :: n in byTool <==> n in seen
        invariant forall n :: n in byTool ==> byTool[n] == CountsOf(log[..i], n)
      {
        var rec := log[i];
        FirstSeenStep(log, i);
        CountsStep(log, i, rec.tool);
        var c := Counts(0, 0, 0);
        if rec.tool in byTool {
          c := byTool[rec.tool];
        } else {
          seen := seen + [rec.tool];
          UsesOfAbsentPrefix(log, i, rec.tool);
        }
        assert c == CountsOf(log[..i], rec.tool);
        c := c.(total := c.total + 1);
        if rec.success {
          c := c.(success := c.success + 1);
        } else {
          c := c.(failure := c.failure + 1);
        }
        TableStep(log, i, byTool, c, byTool[rec.tool := c]);
        byTool := byTool[rec.tool := c];
        i := i + 1;
      }
      assert log[..i] == log;
      StatsTableFacts(log, byTool, seen);
      st := UsageStats(total, successCount, total - successCount, byTool, seen);
    }
  }

  /** A tool's counters over `log`. */
  function CountsOf<V>(log: seq<UsageRecord<V>>, name: string): (c: Counts)
    ensures c.total == c.success + c.failure <= |log|
  {
    UsesSplit(log, name);
    Counts(Uses(log, name), UseSuccesses(log, name), UseFailures(log, name))
  }

  /** Extending the prefix by record `i` bumps that record's tool's counters and no others. */
  lemma CountsStep<V>(log: seq<UsageRecord<V>>, i: nat, name: string)
    requires i < |log|
    ensures var c := CountsOf(log[..i], name); var rec := log[i];
      CountsOf(log[..i + 1], name) ==
        if rec.tool != name then c
        else if rec.success then Counts(c.total + 1, c.success + 1, c.failure)
        else Counts(c.total + 1, c.success, c.failure + 1)
  {
    assert log[..i + 1][..i] == log[..i];
  }

  /** Filing the bumped counters of record `i`'s tool turns the table of the
      first `i` records into the table of the first `i + 1`. */
  lemma TableStep<V>(log: seq<UsageRecord<V>>, i: nat, byTool: map<string, Counts>, c: Counts, byTool': map<string, Counts>)
    requires i < |log|
    requires forall n :: n in byTool ==> byTool[n] == CountsOf(log[..i], n)
    requires c == CountsOf(log[..i + 1], log[i].tool)
    requires byTool' == byTool[log[i].tool := c]
    ensures forall n :: n in byTool' ==> byTool'[n] == CountsOf(log[..i + 1], n)
  {
    forall n | n in byTool && n != log[i].tool
      ensures byTool[n] == CountsOf(log[..i + 1], n)
    {
      CountsStep(log, i, n);
    }
  }

  /** Extending the prefix by record `i` adds its tool to the key order if it is new. */
  lemma FirstSeenStep<V>(log: seq<UsageRecord<V>>, i: nat)
    requires i < |log|
    ensures FirstSeen(log[..i + 1]) ==
      if log[i].tool in FirstSeen(log[..i]) then FirstSeen(log[..i]) else FirstSeen(log[..i]) + [log[i].tool]
  {
    assert log[..i + 1][..i] == log[..i];
  }

  /** The finished per-tool table balances and its totals add up to the log's length. */
  lemma StatsTableFacts<V>(log: seq<UsageRecord<V>>, byTool: map<string, Counts>, seen: seq<string>)
    requires seen == FirstSeen(log)
    requires forall n :: n in byTool <==> n in seen
    requires forall n :: n in byTool ==> byTool[n] == CountsOf(log, n)
    ensures forall n :: n in byTool ==> byTool[n].total == byTool[n].success + byTool[n].failure
    ensures forall i :: 0 <= i < |seen| ==> seen[i] in byTool
    ensures SumTotals(seen, byTool) == |log|
  {
    forall n | n in byTool
      ensures byTool[n].total == byTool[n].success + byTool[n].failure
    {
      UsesSplit(log, n);
    }
    PerToolTotalsSum(log);
    SumTotalsIsSumUses(seen, byTool, log);
  }

  /** A tool missing from the first `i` records has zero counts there. */
  lemma UsesOfAbsentPrefix<V>(log: seq<UsageRecord<V>>, i: nat, name: string)
    requires i <= |log|
    requires name !in FirstSeen(log[..i])
    ensures Uses(log[..i], name) == 0 && UseSuccesses(log[..i], name) == 0 && UseFailures(log[..i], name) == 0
  {
    var pre := log[..i];
    FirstSeenSpec(pre);
    assert forall j :: 0 <= j < |pre| ==> pre[j].tool != name;
    UsesOfAbsent(pre, name);
    UsesSplit(pre, name);
  }
}
