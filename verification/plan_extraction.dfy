/** The post-processing in `_ask_bedrock_for_plan` (planner/app.py) that runs
    once the Converse call has returned: pick the first content block that
    carries a `toolUse`, check that the tool is `emit_plan`, take its input
    as the plan and refuse any `update_file` action without contents.

    Every `raise` of the source is an `Err`; so is every point where Python
    itself would raise (AttributeError or TypeError on a value of the wrong
    JSON type), as `IllTyped`. */
module PlanExtraction {
  import opened Wrappers
  import opened Text
  import opened JsonValues

  datatype Err =
    /** "Model did not emit toolUse" */
    | NoToolUse
    /** "Unexpected tool name", with the name found (`JNull` when absent) */
    | UnexpectedTool(name: Json)
    /** "Invalid update_file at index i: missing contents" */
    | EmptyUpdate(index: nat)
    /** Python raised on a value of the wrong JSON type */
    | IllTyped

  /** The one tool the planner declares and accepts. */
  const PlanTool := "emit_plan"

  /** The content-block key that marks a tool invocation. */
  const ToolUseKey := "toolUse"

  function Lift<T>(o: Option<T>): Result<T, Err> {
    o.ToResult(IllTyped)
  }

  /** `[b for b in items if "toolUse" in b]`. The comprehension visits every
      item, so one item on which `in` raises fails the whole filter. */
  function ToolUseBlocks(items: seq<Json>): (r: Result<seq<Json>, Err>)
    ensures r.Failure? ==> r.error == IllTyped
    ensures r.Failure? <==> exists j :: 0 <= j < |items| && Contains(items[j], ToolUseKey).None?
    ensures r.Success? ==> |r.value| <= |items|
    ensures r.Success? ==> forall j :: 0 <= j < |r.value| ==>
              r.value[j] in items && Contains(r.value[j], ToolUseKey) == Some(true)
    decreases |items|
  {
    if |items| == 0 then Success([])
    else
      var here :- Lift(Contains(items[0], ToolUseKey));
      var rest :- ToolUseBlocks(items[1..]);
      Success(if here then [items[0]] + rest else rest)
  }

  /** The blocks selected from `msg.get("content") or []`. A falsy content
      selects nothing; a str is iterated as one-character strs, none of
      which contains "toolUse"; a dict is iterated as its keys, and a key
      containing "toolUse" would be selected and then subscripted as a str,
      which raises; numbers and `True` are not iterable. */
  function ContentToolUseBlocks(content: Json): (r: Result<seq<Json>, Err>)
    ensures !Truthy(content) ==> r == Success([])
    ensures content.JArr? && Truthy(content) ==> r == ToolUseBlocks(content.items)
    ensures content.JStr? ==> r == Success([])
    ensures content.JObj? && Truthy(content) ==>
              (r.Failure? <==> exists k :: k in content.fields && IsSubstring(ToolUseKey, k))
    ensures content.JObj? ==> r == Failure(IllTyped) || r == Success([])
    ensures (content.JNum? || content.JBool?) && Truthy(content) ==> r == Failure(IllTyped)
  {
    if !Truthy(content) then Success([])
    else match content
      case JArr(items) => ToolUseBlocks(items)
      case JStr(s) => CharsSelectNothing(s); ToolUseBlocks(Chars(s))
      case JObj(fields) =>
        if exists k :: k in fields && IsSubstring(ToolUseKey, k) then Failure(IllTyped)
        else Success([])
      case _ => Failure(IllTyped)
  }

  /** No one-character str contains "toolUse", so iterating a str selects
      nothing and raises nowhere. */
  lemma {:induction false} CharsSelectNothing(s: string)
    ensures ToolUseBlocks(Chars(s)) == Success([])
    decreases |s|
  {
    if |s| > 0 {
      ShorterHayLacksNeedle(ToolUseKey, [s[0]]);
      assert Chars(s)[1..] == Chars(s[1..]);
      CharsSelectNothing(s[1..]);
    }
  }

  /** `block["toolUse"]`: only a dict can be subscripted by a str. */
  function ToolUseOf(block: Json): Result<Json, Err> {
    if block.JObj? && ToolUseKey in block.fields then Success(block.fields[ToolUseKey])
    else Failure(IllTyped)
  }

  /** planner/app.py:154-158: the `toolUse` value of the first selected
      content block of `output.message.content`. */
  function SelectToolUse(res: Json): (r: Result<Json, Err>)
    ensures !res.JObj? ==> r == Failure(IllTyped)
    ensures res.JObj? && !Truthy(Member(res, "output")) ==> r == Failure(NoToolUse)
    ensures r.Failure? ==> r.error == NoToolUse || r.error == IllTyped
  {
    var output :- Lift(Get(res, "output"));
    var message :- Lift(Get(OrEmptyObject(output), "message"));
    var content :- Lift(Get(OrEmptyObject(message), "content"));
    var blocks :- ContentToolUseBlocks(content);
    if |blocks| == 0 then Failure(NoToolUse) else ToolUseOf(blocks[0])
  }

  /** An action the guard refuses: an `update_file` whose `contents` is
      missing or falsy. */
  predicate IsEmptyUpdate(action: Json) {
    && action.JObj?
    && Member(action, "type") == JStr("update_file")
    && !Truthy(Member(action, "contents"))
  }

  /** An action the guard lets through. */
  predicate Acceptable(action: Json) {
    action.JObj? && !IsEmptyUpdate(action)
  }

  /** The loop of planner/app.py:164-166 from index `i` on. */
  function CheckActionsFrom(actions: seq<Json>, i: nat): (r: Check<Err>)
    requires i <= |actions|
    ensures r.Fail? ==> r.error == IllTyped || (r.error.EmptyUpdate? && i <= r.error.index < |actions|)
    ensures r == Pass ==> forall j :: i <= j < |actions| ==> Acceptable(actions[j])
    ensures r.Fail? && r.error.EmptyUpdate? ==> IsEmptyUpdate(actions[r.error.index])
    ensures r.Fail? && r.error.IllTyped? ==> exists j :: i <= j < |actions| && !actions[j].JObj?
    decreases |actions| - i
  {
    if i == |actions| then Pass
    else if !actions[i].JObj? then Fail(IllTyped)
    else if IsEmptyUpdate(actions[i]) then Fail(EmptyUpdate(i))
    else CheckActionsFrom(actions, i + 1)
  }

  /** The guard over the listed actions. */
  function CheckActions(actions: seq<Json>): Check<Err> {
    CheckActionsFrom(actions, 0)
  }

  /** What `enumerate(plan.get("actions", []))` visits. A str is iterated
      as one-character strs (on which `.get` then raises); a non-empty dict
      is iterated as its str keys, so `.get` raises on the first; `None`,
      numbers and bools are not iterable. */
  function ActionItems(actions: Json): (r: Result<seq<Json>, Err>)
    ensures actions.JArr? ==> r == Success(actions.items)
    ensures actions.JNull? || actions.JBool? || actions.JNum? ==> r == Failure(IllTyped)
    ensures actions.JObj? && Truthy(actions) ==> r == Failure(IllTyped)
    ensures r.Failure? ==> r.error == IllTyped
    ensures r.Success? && !actions.JArr? ==> (|r.value| == 0 <==> !Truthy(actions))
    ensures r.Success? && !actions.JArr? ==> forall j :: 0 <= j < |r.value| ==> !r.value[j].JObj?
  {
    match actions
    case JArr(items) => Success(items)
    case JStr(s) => Success(Chars(s))
    case JObj(fields) => if |fields| == 0 then Success([]) else Failure(IllTyped)
    case _ => Failure(IllTyped)
  }

  /** planner/app.py:159-167: check the selected tool and guard its input. */
  function PlanFromToolUse(toolUse: Json): (r: Result<Json, Err>)
    ensures r != Failure(NoToolUse)
    ensures !toolUse.JObj? ==> r == Failure(IllTyped)
    ensures toolUse.JObj? ==>
      (r.Failure? && r.error.UnexpectedTool? <==> Member(toolUse, "name") != JStr(PlanTool))
    ensures r.Failure? && r.error.UnexpectedTool? ==> r.error.name == Member(toolUse, "name")
    ensures r.Success? ==> r.value == OrEmptyObject(Member(toolUse, "input"))
    ensures r.Success? ==> r.value.JObj?
    ensures r.Success? && Member(r.value, "actions").JArr? ==>
              forall j :: 0 <= j < |Member(r.value, "actions").items| ==>
                Acceptable(Member(r.value, "actions").items[j])
    ensures (&& toolUse.JObj?
             && Member(toolUse, "name") == JStr(PlanTool)
             && !Truthy(Member(toolUse, "input")))
            ==> r == Success(EmptyObject)
    ensures (&& toolUse.JObj?
             && Member(toolUse, "name") == JStr(PlanTool)
             && Member(toolUse, "input").JObj?
             && "actions" !in Member(toolUse, "input").fields)
            ==> r == Success(Member(toolUse, "input"))
  {
    if !toolUse.JObj? then Failure(IllTyped)
    else
      var name := Member(toolUse, "name");
      if name != JStr(PlanTool) then Failure(UnexpectedTool(name))
      else
        var plan := OrEmptyObject(Member(toolUse, "input"));
        var actions :- Lift(GetOr(plan, "actions", JArr([])));
        var items :- ActionItems(actions);
        :- CheckActions(items);
        Success(plan)
  }

  /** planner/app.py:153-167 after the call: the plan the provider response
      `res` carries, or the reason it is refused. */
  function ExtractPlan(res: Json): (r: Result<Json, Err>)
    ensures !res.JObj? ==> r == Failure(IllTyped)
    ensures res.JObj? && !Truthy(Member(res, "output")) ==> r == Failure(NoToolUse)
    ensures r == Failure(NoToolUse) <==> SelectToolUse(res) == Failure(NoToolUse)
    ensures r.Success? ==> r.value.JObj?
    ensures r.Success? && Member(r.value, "actions").JArr? ==>
              forall j :: 0 <= j < |Member(r.value, "actions").items| ==>
                Acceptable(Member(r.value, "actions").items[j])
  {
    var toolUse :- SelectToolUse(res);
    PlanFromToolUse(toolUse)
  }
}
