/** Concrete responses run through the extraction, one per documented
    behaviour of planner/app.py:154-167. */
module PlanExamples {
  import opened Wrappers
  import opened JsonValues
  import opened PlanExtraction
  import opened PlanProperties
  import opened Text

  /** A Converse response whose message content is `blocks`. */
  function Response(blocks: seq<Json>): Json {
    JObj(map["output" := JObj(map["message" := JObj(map["content" := JArr(blocks)])])])
  }

  /** The extraction of `Response(blocks)` is decided by the first block
      selected, when no block makes `in` raise. */
  lemma ResponseDecidedBy(blocks: seq<Json>, k: nat)
    requires k < |blocks| && blocks[k].JObj? && ToolUseKey in blocks[k].fields
    requires forall j :: 0 <= j < k ==> !Selected(blocks[j])
    requires forall j :: 0 <= j < |blocks| ==> Inspectable(blocks[j])
    ensures ExtractPlan(Response(blocks)) == PlanFromToolUse(blocks[k].fields[ToolUseKey])
  {
    var res := Response(blocks);
    assert Truthy(JArr(blocks));
    FirstSelectedKept(blocks, k);
    assert SelectToolUse(res) == ToolUseOf(ToolUseBlocks(blocks).value[0]);
  }

  function ToolBlock(name: string, input: Json): Json {
    JObj(map["toolUse" := JObj(map["name" := JStr(name), "input" := input])])
  }

  function Action(kind: string, path: string, contents: Json): Json {
    JObj(map["type" := JStr(kind), "path" := JStr(path), "contents" := contents])
  }

  /** A text block before the tool block is skipped; so is a plain str
      block that does not mention the key. */
  lemma TextBlocksSkipped()
    ensures ExtractPlan(Response([
              JObj(map["text" := JStr("thinking")]),
              JStr("hello"),
              ToolBlock("emit_plan", JObj(map["actions" := JArr([])]))]))
            == Success(JObj(map["actions" := JArr([])]))
  {
    var plan := JObj(map["actions" := JArr([])]);
    var blocks := [JObj(map["text" := JStr("thinking")]), JStr("hello"), ToolBlock("emit_plan", plan)];
    assert !IsSubstring(ToolUseKey, "hello");
    ResponseDecidedBy(blocks, 2);
    PlanGuardedByActions(ToolBlock("emit_plan", plan).fields[ToolUseKey], []);
  }

  /** A tool other than `emit_plan` is reported by name. */
  lemma WrongToolReported()
    ensures ExtractPlan(Response([ToolBlock("wrong_tool", EmptyObject)]))
            == Failure(UnexpectedTool(JStr("wrong_tool")))
  {
    ResponseDecidedBy([ToolBlock("wrong_tool", EmptyObject)], 0);
  }

  /** An `update_file` whose contents are only spaces is not empty and
      passes. */
  lemma WhitespaceContentsPass()
    ensures var plan := JObj(map["actions" := JArr([Action("update_file", "a.ts", JStr("   "))])]);
            ExtractPlan(Response([ToolBlock("emit_plan", plan)])) == Success(plan)
  {
    var action := Action("update_file", "a.ts", JStr("   "));
    var plan := JObj(map["actions" := JArr([action])]);
    ResponseDecidedBy([ToolBlock("emit_plan", plan)], 0);
    assert Acceptable(action);
    PlanGuardedByActions(ToolBlock("emit_plan", plan).fields[ToolUseKey], [action]);
  }

  /** The first `update_file` without contents is the one reported, after
      a `create_file` with empty contents that the guard does not look at. */
  lemma FirstEmptyUpdateReported()
    ensures var plan := JObj(map["actions" := JArr([
              Action("create_file", "a.ts", JStr("")),
              JObj(map["type" := JStr("update_file"), "path" := JStr("b.ts")]),
              Action("update_file", "c.ts", JStr(""))])]);
            ExtractPlan(Response([ToolBlock("emit_plan", plan)])) == Failure(EmptyUpdate(1))
  {
    var actions := [
      Action("create_file", "a.ts", JStr("")),
      JObj(map["type" := JStr("update_file"), "path" := JStr("b.ts")]),
      Action("update_file", "c.ts", JStr(""))];
    var plan := JObj(map["actions" := JArr(actions)]);
    ResponseDecidedBy([ToolBlock("emit_plan", plan)], 0);
    assert Acceptable(actions[0]);
    assert IsEmptyUpdate(actions[1]);
    assert FirstEmptyUpdate(actions, 1);
    PlanGuardedByActions(ToolBlock("emit_plan", plan).fields[ToolUseKey], actions);
  }

  /** A response without any content is refused. */
  lemma EmptyResponseRefused()
    ensures ExtractPlan(EmptyObject) == Failure(NoToolUse)
  {
  }
}
