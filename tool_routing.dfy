/** Where the PCB write tools' calls land on the extension: the methods the pour, fill,
    arc and region tools name are defined by handler files that `allHandlers` does not
    merge, so the extension answers them as unknown. With those tables merged, they reach
    their own file's implementation. */
module ToolRouting {
  import opened Json
  import opened ToolArgs
  import opened HandlerNames
  import opened WriteTools
  import opened WsClient

  /** The primitive types the pour/fill and PCB-primitive handler files implement. */
  const PolygonTypes: set<string> := {"pour", "fill", "arc", "region"}

  /** The create tool of each of those types. */
  function CreateTool(t: string): string {
    "pcb_create_" + t
  }

  /** The table index that implements a type: pour/fill (12) or PCB primitives (13). */
  function ImplementingTable(t: string): nat {
    if t in {"pour", "fill"} then 12 else 13
  }

  /** The create tool of a polygon type calls `pcb.create.<type>`. */
  lemma PolygonCreateMethod(t: string, args: Args)
    requires t in PolygonTypes
    ensures CreateTool(t) in CreateToolMethods
    ensures CreatePrimitive(CreateTool(t), args).methodName == "pcb.create." + t
  {
    if t == "pour" {
      assert CreateTool(t) == "pcb_create_pour" && CreateTool(t)[11..] == t;
    } else if t == "fill" {
      assert CreateTool(t) == "pcb_create_fill" && CreateTool(t)[11..] == t;
    } else if t == "arc" {
      assert CreateTool(t) == "pcb_create_arc" && CreateTool(t)[11..] == t;
    } else {
      assert CreateTool(t) == "pcb_create_region" && CreateTool(t)[11..] == t;
    }
  }

  /** The create, modify and delete method names of a polygon type are in the table that
      implements it. */
  lemma PolygonMethodNames(t: string)
    requires t in PolygonTypes
    ensures var names := CompleteNameTables[ImplementingTable(t)];
      && "pcb.create." + t in names && "pcb.modify." + t in names && "pcb.delete." + t in names
  {
    assert CompleteNameTables[12] == PourFillMethods && CompleteNameTables[13] == PcbPrimitiveMethods;
    if t == "pour" {
      assert "pcb.create." + t == "pcb.create.pour";
      assert "pcb.modify." + t == "pcb.modify.pour" && "pcb.delete." + t == "pcb.delete.pour";
    } else if t == "fill" {
      assert "pcb.create." + t == "pcb.create.fill";
      assert "pcb.modify." + t == "pcb.modify.fill" && "pcb.delete." + t == "pcb.delete.fill";
    } else if t == "arc" {
      assert "pcb.create." + t == "pcb.create.arc";
      assert "pcb.modify." + t == "pcb.modify.arc" && "pcb.delete." + t == "pcb.delete.arc";
    } else {
      assert "pcb.create." + t == "pcb.create.region";
      assert "pcb.modify." + t == "pcb.modify.region" && "pcb.delete." + t == "pcb.delete.region";
    }
  }

  /** The create, modify and delete methods of a polygon type belong to the table that
      implements it. */
  lemma PolygonWriteMethods(args: Args)
    requires TypeIn(args, PolygonTypes)
    ensures var t := Arg(args, "type").s;
      && CreateTool(t) in CreateToolMethods
      && TypeIn(args, ModifyTypes) && TypeIn(args, DeleteTypes)
      && var names := CompleteNameTables[ImplementingTable(t)];
      && CreatePrimitive(CreateTool(t), args).methodName in names
      && ModifyPrimitive(args).methodName in names
      && DeletePrimitives(args).methodName in names
  {
    var t := Arg(args, "type").s;
    PolygonCreateMethod(t, args);
    PolygonMethodNames(t);
  }

  /** As written: every create, modify or delete of a pour, fill, arc or region gets the
      unknown-method answer from `allHandlers`. */
  lemma PolygonWritesAreUnknown(impl: (nat, string) -> Handler, args: Args)
    requires TypeIn(args, PolygonTypes)
    ensures var t := Arg(args, "type").s;
      && CreateTool(t) in CreateToolMethods
      && TypeIn(args, ModifyTypes) && TypeIn(args, DeleteTypes)
      && CreatePrimitive(CreateTool(t), args).methodName !in AllHandlers(impl)
      && ModifyPrimitive(args).methodName !in AllHandlers(impl)
      && DeletePrimitives(args).methodName !in AllHandlers(impl)
  {
    PolygonWriteMethods(args);
    assert CompleteNameTables[12] == PourFillMethods && CompleteNameTables[13] == PcbPrimitiveMethods;
    UnmergedMethodsAreUnknown(impl);
  }

  /** All fifteen handler tables merged, in the same spread order. */
  function CompleteHandlers(impl: (nat, string) -> Handler): HandlerTable {
    Handlers(CompleteNameTables, impl)
  }

  /** No method of the table at `i` (pour/fill or PCB primitives) is named by a later table. */
  lemma LastTableHolding(i: nat, k: string)
    requires i in {12, 13} && k in CompleteNameTables[i]
    ensures forall j :: i < j < |CompleteNameTables| ==> k !in CompleteNameTables[j]
  {
    UnmergedTablesDisjoint();
    assert |CompleteNameTables| == 15;
    assert CompleteNameTables[12] == PourFillMethods && CompleteNameTables[13] == PcbPrimitiveMethods;
    assert CompleteNameTables[14] == EditorMethods;
  }

  /** Corrected: with every table merged, each of those calls is answered by the
      implementation of the table that defines it. */
  lemma PolygonWritesAreAnswered(impl: (nat, string) -> Handler, args: Args)
    requires TypeIn(args, PolygonTypes)
    ensures var t := Arg(args, "type").s;
      && CreateTool(t) in CreateToolMethods
      && TypeIn(args, ModifyTypes) && TypeIn(args, DeleteTypes)
      && var h, i := CompleteHandlers(impl), ImplementingTable(t);
      && var createName, modifyName, deleteName :=
           CreatePrimitive(CreateTool(t), args).methodName, ModifyPrimitive(args).methodName,
           DeletePrimitives(args).methodName;
      && createName in h && h[createName] == impl(i, createName)
      && modifyName in h && h[modifyName] == impl(i, modifyName)
      && deleteName in h && h[deleteName] == impl(i, deleteName)
  {
    var t := Arg(args, "type").s;
    var i := ImplementingTable(t);
    PolygonWriteMethods(args);
    var createName, modifyName, deleteName :=
      CreatePrimitive(CreateTool(t), args).methodName, ModifyPrimitive(args).methodName,
      DeletePrimitives(args).methodName;
    LastTableHolding(i, createName);
    HandlersLastWins(CompleteNameTables, impl, i, createName);
    LastTableHolding(i, modifyName);
    HandlersLastWins(CompleteNameTables, impl, i, modifyName);
    LastTableHolding(i, deleteName);
    HandlersLastWins(CompleteNameTables, impl, i, deleteName);
  }
}
