/** The PCB write tools: which bridge method each tool calls and the params it sends. */
module WriteTools {
  import opened Json
  import opened ToolArgs

  /** `DELETE_HANDLER_MAP`: primitive type to delete method. */
  const DeleteHandlerMap: map<string, string> := map[
    "component" := "pcb.delete.component",
    "track" := "pcb.delete.line",
    "polyline" := "pcb.delete.polyline",
    "via" := "pcb.delete.via",
    "pad" := "pcb.delete.pad",
    "pour" := "pcb.delete.pour",
    "fill" := "pcb.delete.fill",
    "arc" := "pcb.delete.arc",
    "region" := "pcb.delete.region"]

  /** `MODIFY_HANDLER_MAP`: primitive type to modify method. */
  const ModifyHandlerMap: map<string, string> := map[
    "via" := "pcb.modify.via",
    "polyline" := "pcb.modify.polyline",
    "arc" := "pcb.modify.arc",
    "pad" := "pcb.modify.pad",
    "pour" := "pcb.modify.pour",
    "fill" := "pcb.modify.fill",
    "region" := "pcb.modify.region"]

  /** The `type` enum of `pcb_delete_primitives`. */
  const DeleteTypes: set<string> :=
    {"component", "track", "polyline", "via", "pad", "pour", "fill", "arc", "region"}

  /** The `type` enum of `pcb_modify_primitive`. */
  const ModifyTypes: set<string> := {"via", "polyline", "arc", "pad", "pour", "fill", "region"}

  /** Every delete type has a method, named after the type except that a track deletes a
      line. */
  lemma DeleteHandlerMapSpec()
    ensures DeleteTypes == DeleteHandlerMap.Keys
    ensures forall t :: t in DeleteHandlerMap ==>
      DeleteHandlerMap[t] == "pcb.delete." + (if t == "track" then "line" else t)
  {
  }

  /** Every modify type has a method, named after the type. */
  lemma ModifyHandlerMapSpec()
    ensures ModifyTypes == ModifyHandlerMap.Keys
    ensures forall t :: t in ModifyHandlerMap ==> ModifyHandlerMap[t] == "pcb.modify." + t
  {
  }

  /** The fixed method of each create tool, which forwards its arguments unchanged. */
  const CreateToolMethods: map<string, string> := map[
    "pcb_create_track" := "pcb.create.line",
    "pcb_create_polyline_track" := "pcb.create.polyline",
    "pcb_create_via" := "pcb.create.via",
    "pcb_create_arc" := "pcb.create.arc",
    "pcb_create_pad" := "pcb.create.pad",
    "pcb_create_pour" := "pcb.create.pour",
    "pcb_create_fill" := "pcb.create.fill",
    "pcb_create_region" := "pcb.create.region"]

  /** The primitive a create tool names after `pcb_create_`, as its method names it: a
      track creates a line and a polyline track a polyline. */
  function CreatedKind(tool: string): string {
    if tool == "pcb_create_track" then "line"
    else if tool == "pcb_create_polyline_track" then "polyline"
    else if |tool| >= 11 then tool[11..]
    else tool
  }

  /** Every create tool is `pcb_create_<name>` and calls `pcb.create.<kind>`. */
  lemma CreateToolMethodsSpec()
    ensures forall t :: t in CreateToolMethods ==>
      |t| > 11 && t[..11] == "pcb_create_" && CreateToolMethods[t] == "pcb.create." + CreatedKind(t)
  {
    forall t | t in CreateToolMethods
      ensures |t| > 11 && t[..11] == "pcb_create_" && CreateToolMethods[t] == "pcb.create." + CreatedKind(t)
    {
      if t == "pcb_create_via" {
        assert t[11..] == "via";
      } else if t == "pcb_create_arc" {
        assert t[11..] == "arc";
      } else if t == "pcb_create_pad" {
        assert t[11..] == "pad";
      } else if t == "pcb_create_pour" {
        assert t[11..] == "pour";
      } else if t == "pcb_create_fill" {
        assert t[11..] == "fill";
      } else if t == "pcb_create_region" {
        assert t[11..] == "region";
      }
    }
  }

  /** A create tool forwards its arguments unchanged to its create method. */
  function CreatePrimitive(tool: string, args: Args): (call: BridgeCall)
    requires tool in CreateToolMethods
    ensures call.methodName == "pcb.create." + CreatedKind(tool)
    ensures call.params == Obj(args)
  {
    CreateToolMethodsSpec();
    BridgeCall(CreateToolMethods[tool], Obj(args))
  }

  /** `pcb_move_component` */
  function MoveComponent(args: Args): (call: BridgeCall)
    ensures call.methodName == "pcb.modify.component"
    ensures call.params == SplitPrimitiveId(args)
  {
    BridgeCall("pcb.modify.component", SplitPrimitiveId(args))
  }

  /** `pcb_modify_track` */
  function ModifyTrack(args: Args): (call: BridgeCall)
    ensures call.methodName == "pcb.modify.line"
    ensures call.params == SplitPrimitiveId(args)
  {
    BridgeCall("pcb.modify.line", SplitPrimitiveId(args))
  }

  /** The `type` argument the schema admits. */
  predicate TypeIn(args: Args, types: set<string>) {
    Arg(args, "type").Str? && Arg(args, "type").s in types
  }

  /** `pcb_modify_primitive`: the type only selects the method; the primitive id and the
      property record are sent as given. */
  function ModifyPrimitive(args: Args): (call: BridgeCall)
    requires TypeIn(args, ModifyTypes)
    ensures call.methodName == "pcb.modify." + Arg(args, "type").s
    ensures call.params.Obj? && call.params.fields.Keys == {"primitiveId", "property"}
    ensures call.params.fields["primitiveId"] == Arg(args, "primitiveId")
    ensures call.params.fields["property"] == Arg(args, "property")
  {
    ModifyHandlerMapSpec();
    BridgeCall(ModifyHandlerMap[Arg(args, "type").s],
      Obj(map["primitiveId" := Arg(args, "primitiveId"), "property" := Arg(args, "property")]))
  }

  /** `pcb_delete_primitives`: only the ids are sent. */
  function DeletePrimitives(args: Args): (call: BridgeCall)
    requires TypeIn(args, DeleteTypes)
    ensures var t := Arg(args, "type").s;
      call.methodName == "pcb.delete." + (if t == "track" then "line" else t)
    ensures call.params == Obj(map["ids" := Arg(args, "ids")])
  {
    DeleteHandlerMapSpec();
    BridgeCall(DeleteHandlerMap[Arg(args, "type").s], Obj(map["ids" := Arg(args, "ids")]))
  }

  /** `pcb_save` */
  function SavePcb(args: Args): (call: BridgeCall)
    ensures call.methodName == "pcb.document.save"
    ensures call.params.Obj? && call.params.fields.Keys == {"uuid"}
    ensures call.params.fields["uuid"] == Arg(args, "uuid")
  {
    BridgeCall("pcb.document.save", Obj(map["uuid" := Arg(args, "uuid")]))
  }
}
