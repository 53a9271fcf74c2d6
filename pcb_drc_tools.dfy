/** The PCB design-rule management tools: six action-to-method tables, the callbacks that
    forward everything but the action, and the two-call `modify_nets` branch of the
    differential-pair tool. */
module PcbDrcTools {
  import opened Json
  import opened ToolArgs

  const RuleConfigHandlers: map<string, string> := map[
    "get_current_name" := "pcb.drc.getCurrentRuleConfigName",
    "get_by_name" := "pcb.drc.getRuleConfigByName",
    "get_all" := "pcb.drc.getAllRuleConfigs",
    "save" := "pcb.drc.saveRuleConfig",
    "rename" := "pcb.drc.renameRuleConfig",
    "delete" := "pcb.drc.deleteRuleConfig",
    "get_default_name" := "pcb.drc.getDefaultRuleConfigName",
    "set_default" := "pcb.drc.setAsDefaultRuleConfig"]

  const NetRulesHandlers: map<string, string> := map[
    "overwrite_net" := "pcb.drc.overwriteNetRules",
    "get_net_by_net" := "pcb.drc.getNetByNetRules",
    "overwrite_net_by_net" := "pcb.drc.overwriteNetByNetRules",
    "get_region" := "pcb.drc.getRegionRules",
    "overwrite_region" := "pcb.drc.overwriteRegionRules"]

  const NetClassHandlers: map<string, string> := map[
    "get_all" := "pcb.drc.getAllNetClasses",
    "create" := "pcb.drc.createNetClass",
    "delete" := "pcb.drc.deleteNetClass",
    "rename" := "pcb.drc.modifyNetClassName",
    "add_net" := "pcb.drc.addNetToNetClass",
    "remove_net" := "pcb.drc.removeNetFromNetClass"]

  const DiffPairHandlers: map<string, string> := map[
    "get_all" := "pcb.drc.getDiffPairs",
    "create" := "pcb.drc.createDiffPair",
    "delete" := "pcb.drc.deleteDiffPair",
    "rename" := "pcb.drc.modifyDiffPairName"]

  const EqualLengthHandlers: map<string, string> := map[
    "get_all" := "pcb.drc.getEqualLengthGroups",
    "create" := "pcb.drc.createEqualLengthGroup",
    "delete" := "pcb.drc.deleteEqualLengthGroup",
    "rename" := "pcb.drc.modifyEqualLengthGroupName",
    "add_net" := "pcb.drc.addNetToEqualLengthGroup",
    "remove_net" := "pcb.drc.removeNetFromEqualLengthGroup"]

  const PadPairHandlers: map<string, string> := map[
    "create" := "pcb.drc.createPadPairGroup",
    "delete" := "pcb.drc.deletePadPairGroup",
    "rename" := "pcb.drc.modifyPadPairGroupName"]

  /** The `action` enums of the six tools. */
  const RuleConfigActions: set<string> :=
    {"get_current_name", "get_by_name", "get_all", "save", "rename", "delete",
     "get_default_name", "set_default"}
  const NetRulesActions: set<string> :=
    {"overwrite_net", "get_net_by_net", "overwrite_net_by_net", "get_region", "overwrite_region"}
  const NetClassActions: set<string> :=
    {"get_all", "create", "delete", "rename", "add_net", "remove_net"}
  const DiffPairActions: set<string> := {"get_all", "create", "delete", "rename", "modify_nets"}
  const EqualLengthActions: set<string> :=
    {"get_all", "create", "delete", "rename", "add_net", "remove_net"}
  const PadPairActions: set<string> := {"create", "delete", "rename"}

  /** Each table answers every action of its enum, so the looked-up method is defined. */
  lemma TablesCoverActions()
    ensures RuleConfigActions <= RuleConfigHandlers.Keys
    ensures NetRulesActions <= NetRulesHandlers.Keys
    ensures NetClassActions <= NetClassHandlers.Keys
    ensures EqualLengthActions <= EqualLengthHandlers.Keys
    ensures PadPairActions <= PadPairHandlers.Keys
  {
  }

  /** `modify_nets` is the one diff-pair action the table does not answer. */
  lemma ModifyNetsIsTheOnlyUntabledAction()
    ensures DiffPairActions - DiffPairHandlers.Keys == {"modify_nets"}
    ensures DiffPairHandlers.Keys <= DiffPairActions
  {
  }

  /** The `action` argument the schema admits. */
  predicate ActionIn(args: Args, actions: set<string>) {
    Arg(args, "action").Str? && Arg(args, "action").s in actions
  }

  /** `async ({ action, ...params }) => bridge.send(TABLE[action], params)` */
  function ForwardAction(table: map<string, string>, args: Args): (call: BridgeCall)
    requires Arg(args, "action").Str? && Arg(args, "action").s in table
    ensures call.methodName == table[Arg(args, "action").s]
    ensures call.params.Obj? && call.params.fields.Keys == args.Keys - {"action"}
    ensures forall k :: k in call.params.fields ==> call.params.fields[k] == args[k]
  {
    BridgeCall(table[Arg(args, "action").s], Obj(Rest(args, {"action"})))
  }

  /** The five fields the other diff-pair actions send. */
  function DiffPairFields(args: Args): (params: Value)
    ensures params.Obj?
    ensures params.fields.Keys == {"name", "positiveNet", "negativeNet", "originalName", "newName"}
    ensures forall k :: k in params.fields ==> params.fields[k] == Arg(args, k)
  {
    Obj(map["name" := Arg(args, "name"), "positiveNet" := Arg(args, "positiveNet"),
            "negativeNet" := Arg(args, "negativeNet"), "originalName" := Arg(args, "originalName"),
            "newName" := Arg(args, "newName")])
  }

  function PositiveNetCall(args: Args): BridgeCall {
    BridgeCall("pcb.drc.modifyDiffPairPositiveNet",
      Obj(map["name" := Arg(args, "name"), "positiveNet" := Arg(args, "positiveNet")]))
  }

  function NegativeNetCall(args: Args): BridgeCall {
    BridgeCall("pcb.drc.modifyDiffPairNegativeNet",
      Obj(map["name" := Arg(args, "name"), "negativeNet" := Arg(args, "negativeNet")]))
  }

  /** `pcb_manage_diff_pairs`. `send` is what each bridge call settles with; a rejected call
      rejects the tool. The result is the calls made, in order, and the value the tool
      reports (before it is rendered as JSON text). */
  method ManageDiffPairs(args: Args, send: BridgeCall -> Result<Value>)
    returns (calls: seq<BridgeCall>, r: Result<Value>)
    requires ActionIn(args, DiffPairActions)
    ensures Arg(args, "action").s != "modify_nets" ==>
      && calls == [BridgeCall(DiffPairHandlers[Arg(args, "action").s], DiffPairFields(args))]
      && r == send(calls[0])
    ensures Arg(args, "action").s == "modify_nets" ==>
      var positive, negative := Arg(args, "positiveNet") != Undefined, Arg(args, "negativeNet") != Undefined;
      var positiveFailed := positive && send(PositiveNetCall(args)).Err?;
      && calls == (if positive then [PositiveNetCall(args)] else [])
                  + (if negative && !positiveFailed then [NegativeNetCall(args)] else [])
      && (r.Err? <==> positiveFailed || (negative && send(NegativeNetCall(args)).Err?))
      && (r.Err? ==> r.error == if positiveFailed then send(PositiveNetCall(args)).error
                                 else send(NegativeNetCall(args)).error)
      && (r.Ok? ==>
        && r.value.Obj?
        && r.value.fields.Keys == (if positive then {"positive"} else {}) + (if negative then {"negative"} else {})
        && (positive ==> r.value.fields["positive"] == send(PositiveNetCall(args)).value)
        && (negative ==> r.value.fields["negative"] == send(NegativeNetCall(args)).value))
  {
    var action := Arg(args, "action").s;
    if action == "modify_nets" {
      var results: map<string, Value> := map[];
      calls := [];
      if Arg(args, "positiveNet") != Undefined {
        var call := PositiveNetCall(args);
        calls := calls + [call];
        var answer := send(call);
        if answer.Err? {
          return calls, Err(answer.error);
        }
        results := results["positive" := answer.value];
      }
      if Arg(args, "negativeNet") != Undefined {
        var call := NegativeNetCall(args);
        calls := calls + [call];
        var answer := send(call);
        if answer.Err? {
          return calls, Err(answer.error);
        }
        results := results["negative" := answer.value];
      }
      return calls, Ok(Obj(results));
    }
    var call := BridgeCall(DiffPairHandlers[action], DiffPairFields(args));
    calls := [call];
    r := send(call);
  }
}
