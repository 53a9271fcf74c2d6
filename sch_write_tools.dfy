/** The schematic write tools: which bridge method each tool calls and how it reshapes its
    arguments (the primitive id split, the line-type conversion, the selection defaults). */
module SchWriteTools {
  import opened Json
  import opened ToolArgs
  import Bridge

  /** The tools that forward their validated arguments unchanged. */
  const ForwardingTools: map<string, string> := map[
    "sch_create_component" := "sch.component.create",
    "sch_create_net_flag" := "sch.component.createNetFlag",
    "sch_create_net_port" := "sch.component.createNetPort"]

  function Forward(tool: string, args: Args): (call: BridgeCall)
    requires tool in ForwardingTools
    ensures call.methodName == ForwardingTools[tool]
    ensures call.params == Obj(args)
  {
    BridgeCall(ForwardingTools[tool], Obj(args))
  }

  /** The tools that take no arguments and pass no params. */
  const ParameterlessTools: map<string, string> := map[
    "sch_clear_selection" := "sch.select.clear",
    "sch_save" := "sch.document.save",
    "sch_import_changes" := "sch.document.importChanges"]

  /** A call without params reaches the extension with the empty object, the default of
      the bridge's `params` argument. */
  function Parameterless(tool: string): (call: BridgeCall)
    requires tool in ParameterlessTools
    ensures call.methodName == ParameterlessTools[tool]
    ensures Bridge.DefaultParams(call.params) == EmptyObject
  {
    BridgeCall(ParameterlessTools[tool], Undefined)
  }

  /** `sch_modify_component` */
  function ModifyComponent(args: Args): (call: BridgeCall)
    ensures call.methodName == "sch.component.modify"
    ensures call.params == SplitPrimitiveId(args)
  {
    BridgeCall("sch.component.modify", SplitPrimitiveId(args))
  }

  /** The `{ ids }` record of the two delete tools. */
  function IdsOnly(args: Args): (params: Value)
    ensures params.Obj? && params.fields.Keys == {"ids"}
    ensures params.fields["ids"] == Arg(args, "ids")
  {
    Obj(map["ids" := Arg(args, "ids")])
  }

  /** `sch_delete_component` */
  function DeleteComponent(args: Args): (call: BridgeCall)
    ensures call.methodName == "sch.component.delete" && call.params == IdsOnly(args)
  {
    BridgeCall("sch.component.delete", IdsOnly(args))
  }

  /** `sch_delete_wire` */
  function DeleteWire(args: Args): (call: BridgeCall)
    ensures call.methodName == "sch.wire.delete" && call.params == IdsOnly(args)
  {
    BridgeCall("sch.wire.delete", IdsOnly(args))
  }

  /** `sch_select_primitives` */
  function SelectPrimitives(args: Args): (call: BridgeCall)
    ensures call.methodName == "sch.select.select"
    ensures call.params.Obj? && call.params.fields.Keys == {"primitiveIds"}
    ensures call.params.fields["primitiveIds"] == Arg(args, "primitiveIds")
  {
    BridgeCall("sch.select.select", Obj(map["primitiveIds" := Arg(args, "primitiveIds")]))
  }

  /** `sch_set_netlist` */
  function SetNetlist(args: Args): (call: BridgeCall)
    ensures call.methodName == "sch.netlist.set"
    ensures call.params.Obj? && call.params.fields.Keys == {"type", "netlist"}
    ensures call.params.fields["type"] == Arg(args, "type")
    ensures call.params.fields["netlist"] == Arg(args, "netlist")
  {
    BridgeCall("sch.netlist.set", Obj(map["type" := Arg(args, "type"), "netlist" := Arg(args, "netlist")]))
  }

  /** `sch_cross_probe_select`: `highlight` and `select` default to true when not given; an
      explicit value, false included, is kept. */
  function CrossProbeSelect(args: Args): (call: BridgeCall)
    ensures call.methodName == "sch.select.crossProbe"
    ensures call.params.Obj?
    ensures call.params.fields.Keys == {"components", "pins", "nets", "highlight", "select"}
    ensures forall k :: k in {"components", "pins", "nets"} ==> call.params.fields[k] == Arg(args, k)
    ensures forall k :: k in {"highlight", "select"} ==>
      call.params.fields[k] == (if Nullish(Arg(args, k)) then Bool(true) else Arg(args, k))
  {
    BridgeCall("sch.select.crossProbe", Obj(map[
      "components" := Arg(args, "components"),
      "pins" := Arg(args, "pins"),
      "nets" := Arg(args, "nets"),
      "highlight" := Coalesce(Arg(args, "highlight"), Bool(true)),
      "select" := Coalesce(Arg(args, "select"), Bool(true))]))
  }

  /** The `lineType` enum: solid, dashed, dotted, dot-dashed. */
  const LineTypes: set<string> := {"0", "1", "2", "3"}

  /** A `lineType` argument the schema admits: absent, or one of the enum strings. */
  predicate ValidLineType(lineType: Value) {
    lineType == Undefined || (lineType.Str? && lineType.s in LineTypes)
  }

  /** `Number(lineType)` on an enum string: the number whose decimal rendering it is. */
  function LineTypeNumber(s: string): (n: nat)
    requires s in LineTypes
    ensures n < 4 && NatToString(n) == s
  {
    if s == "0" then 0 else if s == "1" then 1 else if s == "2" then 2 else 3
  }

  /** `{ ...rest }` followed by `if (lineType !== undefined) record.lineType = Number(lineType)`. */
  method WithLineType(rest: Args, lineType: Value) returns (record: Args)
    requires "lineType" !in rest && ValidLineType(lineType)
    ensures record.Keys == rest.Keys + (if lineType == Undefined then {} else {"lineType"})
    ensures forall k :: k in rest ==> record[k] == rest[k]
    ensures lineType != Undefined ==> record["lineType"] == Num(LineTypeNumber(lineType.s))
  {
    record := rest;
    if lineType != Undefined {
      record := record["lineType" := Num(LineTypeNumber(lineType.s))];
    }
  }

  /** `sch_create_wire`: every argument but `lineType` is copied; a given `lineType` becomes
      its number, and an absent one leaves no key. */
  method CreateWire(args: Args) returns (call: BridgeCall)
    requires ValidLineType(Arg(args, "lineType"))
    ensures call.methodName == "sch.wire.create" && call.params.Obj?
    ensures var lineType := Arg(args, "lineType");
      && call.params.fields.Keys == args.Keys - (if lineType == Undefined then {"lineType"} else {})
      && (forall k :: k in call.params.fields && k != "lineType" ==> call.params.fields[k] == args[k])
      && (lineType != Undefined ==> call.params.fields["lineType"] == Num(LineTypeNumber(lineType.s)))
  {
    var params := WithLineType(Rest(args, {"lineType"}), Arg(args, "lineType"));
    call := BridgeCall("sch.wire.create", Obj(params));
  }

  /** `sch_modify_wire`: `{ primitiveId, property }` where `property` is every other argument,
      with `lineType` converted as in `CreateWire`. */
  method ModifyWire(args: Args) returns (call: BridgeCall)
    requires ValidLineType(Arg(args, "lineType"))
    ensures call.methodName == "sch.wire.modify"
    ensures call.params.Obj? && call.params.fields.Keys == {"primitiveId", "property"}
    ensures call.params.fields["primitiveId"] == Arg(args, "primitiveId")
    ensures var property, lineType := call.params.fields["property"], Arg(args, "lineType");
      && property.Obj?
      && "primitiveId" !in property.fields
      && property.fields.Keys == args.Keys - {"primitiveId"} - (if lineType == Undefined then {"lineType"} else {})
      && (forall k :: k in property.fields && k != "lineType" ==> property.fields[k] == args[k])
      && (lineType != Undefined ==> property.fields["lineType"] == Num(LineTypeNumber(lineType.s)))
  {
    var property := WithLineType(Rest(args, {"primitiveId", "lineType"}), Arg(args, "lineType"));
    call := BridgeCall("sch.wire.modify",
      Obj(map["primitiveId" := Arg(args, "primitiveId"), "property" := Obj(property)]));
  }

  /** The converted line type reads back as the string that was given. */
  lemma LineTypeRoundTrip(s: string)
    requires s in LineTypes
    ensures JsString(Num(LineTypeNumber(s))) == s
  {
  }
}
