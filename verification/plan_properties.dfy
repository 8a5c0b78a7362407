/** What the extraction in `_ask_bedrock_for_plan` guarantees, stated
    against independent descriptions: the first block carrying a `toolUse`
    decides the outcome, a response without one is refused with
    `NoToolUse`, and the guard reports the smallest index of an
    `update_file` without contents. */
module PlanProperties {
  import opened Wrappers
  import opened JsonValues
  import opened PlanExtraction

  // ---------------------------------------------------------------------
  // The action guard

  /** `k` is the first action the guard refuses for missing contents: every
      action before it is an object the guard lets through. */
  ghost predicate FirstEmptyUpdateFrom(actions: seq<Json>, i: nat, k: nat) {
    && i <= k < |actions|
    && IsEmptyUpdate(actions[k])
    && forall j :: i <= j < k ==> Acceptable(actions[j])
  }

  ghost predicate FirstEmptyUpdate(actions: seq<Json>, k: nat) {
    FirstEmptyUpdateFrom(actions, 0, k)
  }

  lemma {:induction false} CheckActionsFromSpec(actions: seq<Json>, i: nat)
    requires i <= |actions|
    ensures CheckActionsFrom(actions, i) == Pass
            <==> forall j :: i <= j < |actions| ==> Acceptable(actions[j])
    ensures CheckActionsFrom(actions, i).Fail? && CheckActionsFrom(actions, i).error.EmptyUpdate?
            ==> FirstEmptyUpdateFrom(actions, i, CheckActionsFrom(actions, i).error.index)
    ensures forall k ::
              FirstEmptyUpdateFrom(actions, i, k) ==> CheckActionsFrom(actions, i) == Fail(EmptyUpdate(k))
    decreases |actions| - i
  {
    if i < |actions| && Acceptable(actions[i]) {
      CheckActionsFromSpec(actions, i + 1);
      forall k | FirstEmptyUpdateFrom(actions, i, k)
        ensures FirstEmptyUpdateFrom(actions, i + 1, k)
      {
        assert k != i;
      }
    }
  }

  /** planner/app.py:164-166: the guard accepts exactly the action lists in
      which every action is an object that is not an empty `update_file`,
      and when it refuses one for missing contents it reports the smallest
      such index. */
  lemma GuardReportsFirstEmptyUpdate(actions: seq<Json>)
    ensures CheckActions(actions) == Pass
            <==> forall j :: 0 <= j < |actions| ==> Acceptable(actions[j])
    ensures CheckActions(actions).Fail? && CheckActions(actions).error.EmptyUpdate?
            ==> FirstEmptyUpdate(actions, CheckActions(actions).error.index)
    ensures forall k :: FirstEmptyUpdate(actions, k) ==> CheckActions(actions) == Fail(EmptyUpdate(k))
  {
    CheckActionsFromSpec(actions, 0);
  }

  /** planner/app.py:165: only `update_file` is inspected; objects of any
      other type, `create_file`, `delete_file` and `run_command` included,
      are never refused, whatever their fields. */
  lemma OnlyUpdateFileIsChecked(actions: seq<Json>)
    requires forall j :: 0 <= j < |actions| ==>
               actions[j].JObj? && Member(actions[j], "type") != JStr("update_file")
    ensures CheckActions(actions) == Pass
  {
    GuardReportsFirstEmptyUpdate(actions);
  }

  /** planner/app.py:161-167 for a plan object with an `actions` list: the
      plan comes back unchanged exactly when the guard accepts every action,
      and otherwise the first empty `update_file` is the one reported. */
  lemma PlanGuardedByActions(toolUse: Json, actions: seq<Json>)
    requires toolUse.JObj? && Member(toolUse, "name") == JStr(PlanTool)
    requires Member(toolUse, "input").JObj?
    requires Member(Member(toolUse, "input"), "actions") == JArr(actions)
    ensures PlanFromToolUse(toolUse) == Success(Member(toolUse, "input"))
            <==> forall j :: 0 <= j < |actions| ==> Acceptable(actions[j])
    ensures forall k ::
              FirstEmptyUpdate(actions, k) ==> PlanFromToolUse(toolUse) == Failure(EmptyUpdate(k))
    ensures PlanFromToolUse(toolUse).Failure? && PlanFromToolUse(toolUse).error.EmptyUpdate?
            ==> FirstEmptyUpdate(actions, PlanFromToolUse(toolUse).error.index)
  {
    var input := Member(toolUse, "input");
    assert "actions" in input.fields;
    assert Truthy(input);
    GuardReportsFirstEmptyUpdate(actions);
  }

  // ---------------------------------------------------------------------
  // Selecting the tool invocation

  /** Python's `"toolUse" in b` holds of `b`. */
  predicate Selected(block: Json) {
    Contains(block, ToolUseKey) == Some(true)
  }

  /** `"toolUse" in b` does not raise on `b`. */
  predicate Inspectable(block: Json) {
    Contains(block, ToolUseKey).Some?
  }

  /** The filter keeps nothing exactly when every block is inspectable and
      none is selected. */
  lemma {:induction false} NothingSelected(items: seq<Json>)
    ensures ToolUseBlocks(items) == Success([])
            <==> forall j :: 0 <= j < |items| ==> Contains(items[j], ToolUseKey) == Some(false)
    decreases |items|
  {
    if |items| > 0 {
      NothingSelected(items[1..]);
      assert forall j :: 1 <= j < |items| ==> items[j] == items[1..][j - 1];
      if ToolUseBlocks(items) == Success([]) {
        assert Contains(items[0], ToolUseKey) == Some(false);
      }
    }
  }

  /** When no block makes `in` raise, the first block kept is the first
      selected one. */
  lemma {:induction false} FirstSelectedKept(items: seq<Json>, k: nat)
    requires k < |items| && Selected(items[k])
    requires forall j :: 0 <= j < k ==> !Selected(items[j])
    requires forall j :: 0 <= j < |items| ==> Inspectable(items[j])
    ensures ToolUseBlocks(items).Success?
    ensures |ToolUseBlocks(items).value| > 0 && ToolUseBlocks(items).value[0] == items[k]
    decreases |items|
  {
    if k > 0 {
      FirstSelectedKept(items[1..], k - 1);
    }
  }

  /** `output` after `or {}`. */
  ghost function Output(res: Json): Json {
    OrEmptyObject(Member(res, "output"))
  }

  /** `message` after `or {}`. */
  ghost function Message(res: Json): Json {
    OrEmptyObject(Member(Output(res), "message"))
  }

  /** `content` as read from the message. */
  ghost function Content(res: Json): Json {
    Member(Message(res), "content")
  }

  /** The shape the Converse API returns: `output` and `message` objects
      (or absent), `content` a list of objects (or absent). */
  ghost predicate WellShaped(res: Json) {
    && res.JObj?
    && Output(res).JObj?
    && Message(res).JObj?
    && (!Truthy(Content(res)) || Content(res).JArr?)
    && (Content(res).JArr? ==>
          forall i :: 0 <= i < |Content(res).items| ==> Content(res).items[i].JObj?)
  }

  /** The content blocks of a response, none when `content` is absent. */
  ghost function Blocks(res: Json): seq<Json> {
    if Content(res).JArr? then Content(res).items else []
  }

  /** A content block that carries a tool invocation. */
  ghost predicate CarriesToolUse(block: Json) {
    block.JObj? && ToolUseKey in block.fields
  }

  ghost predicate FirstCarrier(blocks: seq<Json>, k: nat) {
    && k < |blocks|
    && CarriesToolUse(blocks[k])
    && forall j :: 0 <= j < k ==> !CarriesToolUse(blocks[j])
  }

  lemma {:induction false} FirstCarrierExists(blocks: seq<Json>, i: nat) returns (k: nat)
    requires i < |blocks| && CarriesToolUse(blocks[i])
    ensures FirstCarrier(blocks, k)
    decreases i
  {
    if exists j :: 0 <= j < i && CarriesToolUse(blocks[j]) {
      var j :| 0 <= j < i && CarriesToolUse(blocks[j]);
      k := FirstCarrierExists(blocks, j);
    } else {
      k := i;
    }
  }

  /** In a well-shaped response the blocks the filter visits are `Blocks`. */
  lemma WellShapedFilter(res: Json)
    requires WellShaped(res)
    ensures SelectToolUse(res) == (
      var blocks := ToolUseBlocks(Blocks(res));
      if blocks.Failure? then Failure(blocks.error)
      else if |blocks.value| == 0 then Failure(NoToolUse)
      else ToolUseOf(blocks.value[0]))
  {
  }

  /** planner/app.py:154-157: a response missing `output`, `message` or
      `content`, or holding a falsy value at one of those levels, is refused
      with `NoToolUse`. */
  lemma MissingLevelsGiveNoToolUse(res: Json)
    requires res.JObj?
    requires || !Truthy(Member(res, "output"))
             || (Output(res).JObj? && !Truthy(Member(Output(res), "message")))
             || (Output(res).JObj? && Message(res).JObj? && !Truthy(Content(res)))
    ensures ExtractPlan(res) == Failure(NoToolUse)
  {
  }

  /** planner/app.py:155-157: a well-shaped response is refused with
      `NoToolUse` exactly when none of its content blocks has a `toolUse`
      key. */
  lemma NoToolUseIffNoCarrier(res: Json)
    requires WellShaped(res)
    ensures ExtractPlan(res) == Failure(NoToolUse)
            <==> forall i :: 0 <= i < |Blocks(res)| ==> !CarriesToolUse(Blocks(res)[i])
  {
    var blocks := Blocks(res);
    WellShapedFilter(res);
    NothingSelected(blocks);
    if exists i :: 0 <= i < |blocks| && CarriesToolUse(blocks[i]) {
      var i :| 0 <= i < |blocks| && CarriesToolUse(blocks[i]);
      var k := FirstCarrierExists(blocks, i);
      FirstSelectedKept(blocks, k);
    }
  }

  /** planner/app.py:155,158: the first content block carrying a `toolUse`
      decides the outcome; its `toolUse` value is what gets checked. */
  lemma FirstCarrierDecides(res: Json, k: nat)
    requires WellShaped(res)
    requires FirstCarrier(Blocks(res), k)
    ensures ExtractPlan(res) == PlanFromToolUse(Blocks(res)[k].fields[ToolUseKey])
  {
    WellShapedFilter(res);
    FirstSelectedKept(Blocks(res), k);
  }

  /** planner/app.py:155,158: blocks after the first one carrying a
      `toolUse` are ignored. */
  lemma LaterBlocksIgnored(res1: Json, res2: Json, k: nat)
    requires WellShaped(res1) && WellShaped(res2)
    requires FirstCarrier(Blocks(res1), k)
    requires k < |Blocks(res2)| && Blocks(res1)[..k + 1] == Blocks(res2)[..k + 1]
    ensures ExtractPlan(res1) == ExtractPlan(res2)
  {
    var b1, b2 := Blocks(res1), Blocks(res2);
    assert forall j :: 0 <= j <= k ==> b1[j] == b1[..k + 1][j] == b2[..k + 1][j] == b2[j];
    FirstCarrierDecides(res1, k);
    FirstCarrierDecides(res2, k);
  }
}
