/** The task planner: a first-match keyword classifier that picks one of four
    built-in step templates for a goal and prefixes every step onto the goal,
    over a template table that callers may extend or overwrite. */
module Planner {
  import opened Text

  /** Trigger words of each keyword group, tried in this order. */
  const ResearchWords: seq<string> := ["research", "investigate", "study"]
  const ProjectWords: seq<string> := ["build", "create", "develop", "project"]
  const LearningWords: seq<string> := ["learn", "understand", "master"]

  /** The only template names `Plan` ever reads. */
  const BuiltInNames: set<string> := {"research", "project", "learning", "default"}

  /** Some word of the group occurs in the (lower-cased) goal. */
  predicate AnyIn(words: seq<string>, goalLower: string) {
    exists k :: 0 <= k < |words| && Contains(words[k], goalLower)
  }

  /** The template a goal selects: research words first, then project words,
      then learning words, else the default template. */
  function TemplateName(goal: string): (name: string)
    ensures name in BuiltInNames
    ensures name == "research" <==> AnyIn(ResearchWords, Lower(goal))
    ensures name == "project" <==>
      !AnyIn(ResearchWords, Lower(goal)) && AnyIn(ProjectWords, Lower(goal))
    ensures name == "learning" <==>
      !AnyIn(ResearchWords, Lower(goal)) && !AnyIn(ProjectWords, Lower(goal)) && AnyIn(LearningWords, Lower(goal))
    ensures name == "default" <==>
      !AnyIn(ResearchWords, Lower(goal)) && !AnyIn(ProjectWords, Lower(goal)) && !AnyIn(LearningWords, Lower(goal))
  {
    var low := Lower(goal);
    if AnyIn(ResearchWords, low) then "research"
    else if AnyIn(ProjectWords, low) then "project"
    else if AnyIn(LearningWords, low) then "learning"
    else "default"
  }

  /** Template selection ignores letter case: a goal and its lower-cased
      form select the same template. */
  lemma TemplateNameIgnoresCase(goal: string)
    ensures TemplateName(goal) == TemplateName(Lower(goal))
  {
    LowerIdempotent(goal);
  }

  /** A group word written into the goal in any letter case (`w`, whose
      lower-cased form is the group word `word`) selects that group's
      template unless an earlier group also matches, and in no case leaves
      the goal to the default template. */
  lemma WordSelectsTemplate(goal: string, w: string, word: string)
    requires Contains(w, goal) && Lower(w) == word
    ensures word in ResearchWords ==> TemplateName(goal) == "research"
    ensures word in ProjectWords && !AnyIn(ResearchWords, Lower(goal)) ==> TemplateName(goal) == "project"
    ensures word in LearningWords && !AnyIn(ResearchWords, Lower(goal)) && !AnyIn(ProjectWords, Lower(goal)) ==>
      TemplateName(goal) == "learning"
    ensures word in ResearchWords + ProjectWords + LearningWords ==> TemplateName(goal) != "default"
  {
    LowerPreservesContains(w, goal);
  }

  /** Each template step, followed by ": " and the goal as given. */
  function Contextualize(template: seq<string>, goal: string): (steps: seq<string>)
    ensures |steps| == |template|
    ensures forall i :: 0 <= i < |steps| ==> steps[i] == template[i] + ": " + goal
  {
    seq(|template|, i requires 0 <= i < |template| => template[i] + ": " + goal)
  }

  class TaskPlanner {
    /** Template name to its list of steps. */
    var templates: map<string, seq<string>>

    /** The four built-in names are present: the table is only ever added to. */
    ghost predicate Valid()
      reads this
    {
      forall name :: name in BuiltInNames ==> name in templates
    }

    constructor ()
      ensures Valid()
      ensures templates == map[
        "research" := ["Gather information", "Review sources", "Summarize findings"],
        "project" := ["Define requirements", "Plan approach", "Execute", "Review"],
        "learning" := ["Identify topics", "Study materials", "Practice", "Test knowledge"],
        "default" := ["Analyze goal", "Break into steps", "Prioritize", "Execute"]]
      ensures |templates["research"]| == 3 && |templates["project"]| == 4
      ensures |templates["learning"]| == 4 && |templates["default"]| == 4
    {
      templates := map[
        "research" := ["Gather information", "Review sources", "Summarize findings"],
        "project" := ["Define requirements", "Plan approach", "Execute", "Review"],
        "learning" := ["Identify topics", "Study materials", "Practice", "Test knowledge"],
        "default" := ["Analyze goal", "Break into steps", "Prioritize", "Execute"]];
    }

    /** The selected template's steps, each contextualized with the original
        (not lower-cased) goal. */
    function Plan(goal: string): (steps: seq<string>)
      reads this
      requires Valid()
      ensures TemplateName(goal) in templates
      ensures |steps| == |templates[TemplateName(goal)]|
      ensures forall i :: 0 <= i < |steps| ==> steps[i] == templates[TemplateName(goal)][i] + ": " + goal
    {
      Contextualize(templates[TemplateName(goal)], goal)
    }

    /** Files `tasks` under `name`, replacing any template of that name and
        leaving the others alone. A new name never changes any plan; a
        built-in name changes exactly the plans of the goals that select it. */
    method AddTemplate(name: string, tasks: seq<string>)
      requires Valid()
      modifies this
      ensures Valid()
      ensures templates == old(templates)[name := tasks]
      ensures forall goal :: TemplateName(goal) != name ==> Plan(goal) == old(Plan(goal))
      ensures forall goal :: TemplateName(goal) == name ==> Plan(goal) == Contextualize(tasks, goal)
    {
      templates := templates[name := tasks];
    }
  }

  /** `Plan` reads only the four built-in templates: planners that agree on
      those produce the same plan for every goal, whatever else they hold. */
  lemma PlanReadsOnlyBuiltIns(p: TaskPlanner, q: TaskPlanner, goal: string)
    requires p.Valid() && q.Valid()
    requires forall name :: name in BuiltInNames ==> p.templates[name] == q.templates[name]
    ensures p.Plan(goal) == q.Plan(goal)
  {
  }

  /** A template filed under any other name is never selected. */
  lemma CustomTemplateNeverSelected(name: string, goal: string)
    requires name !in BuiltInNames
    ensures TemplateName(goal) != name
  {
  }
}
