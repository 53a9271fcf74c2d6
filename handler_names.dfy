/** The method names each handler file of the extension defines, and which of those
    tables `allHandlers` merges. */
module HandlerNames {
  const ComponentMethods: set<string> :=
    {"pcb.getAll.component", "pcb.modify.component", "pcb.component.getPins"}
  const TrackMethods: set<string> :=
    {"pcb.getAll.line", "pcb.create.line", "pcb.modify.line", "pcb.delete.line",
     "pcb.getAll.polyline", "pcb.create.polyline", "pcb.delete.polyline"}
  const ViaMethods: set<string> := {"pcb.getAll.via", "pcb.create.via", "pcb.delete.via"}
  const NetMethods: set<string> :=
    {"pcb.net.getAllNames", "pcb.net.getPrimitives", "pcb.net.getLength",
     "pcb.net.highlight", "pcb.net.select"}
  const DrcMethods: set<string> :=
    {"pcb.drc.check", "pcb.drc.getRuleConfiguration", "pcb.drc.getNetRules",
     "pcb.drc.getDiffPairs", "pcb.drc.getEqualLengthGroups"}
  const DocumentMethods: set<string> :=
    {"pcb.document.save", "pcb.document.navigateTo", "pcb.getAll.pad", "pcb.select.getAll"}
  const SchComponentMethods: set<string> :=
    {"sch.component.create", "sch.component.createNetFlag", "sch.component.createNetPort",
     "sch.component.delete", "sch.component.modify", "sch.component.get",
     "sch.component.getAll", "sch.component.getAllPins"}
  const SchWireMethods: set<string> :=
    {"sch.wire.create", "sch.wire.delete", "sch.wire.modify", "sch.wire.get", "sch.wire.getAll"}
  const SchDocumentMethods: set<string> :=
    {"sch.document.save", "sch.document.importChanges", "sch.drc.check",
     "sch.netlist.get", "sch.netlist.set"}
  const SchSelectMethods: set<string> :=
    {"sch.select.getAll", "sch.select.getAllIds", "sch.select.select",
     "sch.select.crossProbe", "sch.select.clear"}
  const SchPrimitiveMethods: set<string> :=
    {"sch.primitive.getType", "sch.primitive.get", "sch.primitive.getBBox"}
  const LibraryMethods: set<string> :=
    {"lib.device.search", "lib.device.get", "lib.device.getByLcscIds",
     "lib.getSystemLibraryUuid", "lib.getAllLibraries"}

  /** Tables that handler files define but the merge does not include. */
  const PourFillMethods: set<string> :=
    {"pcb.getAll.pour", "pcb.get.pour", "pcb.create.pour", "pcb.modify.pour", "pcb.delete.pour",
     "pcb.getAll.fill", "pcb.get.fill", "pcb.create.fill", "pcb.modify.fill", "pcb.delete.fill"}
  const PcbPrimitiveMethods: set<string> :=
    {"pcb.getAll.arc", "pcb.get.arc", "pcb.create.arc", "pcb.modify.arc", "pcb.delete.arc",
     "pcb.getAll.region", "pcb.get.region", "pcb.create.region", "pcb.modify.region",
     "pcb.delete.region"}
  const EditorMethods: set<string> :=
    {"editor.project.getStructure", "editor.getCurrentDocument", "editor.openDocument",
     "editor.getOpenTabs"}

  /** The method names of the twelve partial tables, in the order `allHandlers` spreads
      them. */
  const MergedNameTables: seq<set<string>> :=
    [ComponentMethods, TrackMethods, ViaMethods, NetMethods, DrcMethods, DocumentMethods,
     SchComponentMethods, SchWireMethods, SchDocumentMethods, SchSelectMethods,
     SchPrimitiveMethods, LibraryMethods]

  /** The names that only the pour/fill, PCB-primitive and editor tables define. */
  const UnmergedNames: set<string> := PourFillMethods + PcbPrimitiveMethods + EditorMethods

  /** Every table a handler file defines: the twelve merged ones, then pour/fill (12),
      PCB primitives (13) and the editor (14). */
  const CompleteNameTables: seq<set<string>> :=
    MergedNameTables + [PourFillMethods, PcbPrimitiveMethods, EditorMethods]

  /** The three tables the merge leaves out share no method name. */
  lemma UnmergedTablesDisjoint()
    ensures PourFillMethods !! PcbPrimitiveMethods && PourFillMethods !! EditorMethods
    ensures PcbPrimitiveMethods !! EditorMethods
  {
  }

  lemma ComponentUnmerged()
    ensures PourFillMethods !! ComponentMethods && PcbPrimitiveMethods !! ComponentMethods && EditorMethods !! ComponentMethods
  {
  }

  lemma TrackUnmerged()
    ensures PourFillMethods !! TrackMethods && PcbPrimitiveMethods !! TrackMethods && EditorMethods !! TrackMethods
  {
  }

  lemma ViaUnmerged()
    ensures PourFillMethods !! ViaMethods && PcbPrimitiveMethods !! ViaMethods && EditorMethods !! ViaMethods
  {
  }

  lemma NetUnmerged()
    ensures PourFillMethods !! NetMethods && PcbPrimitiveMethods !! NetMethods && EditorMethods !! NetMethods
  {
  }

  lemma DrcUnmerged()
    ensures PourFillMethods !! DrcMethods && PcbPrimitiveMethods !! DrcMethods && EditorMethods !! DrcMethods
  {
  }

  lemma DocumentUnmerged()
    ensures PourFillMethods !! DocumentMethods && PcbPrimitiveMethods !! DocumentMethods && EditorMethods !! DocumentMethods
  {
  }

  lemma SchComponentUnmerged()
    ensures PourFillMethods !! SchComponentMethods && PcbPrimitiveMethods !! SchComponentMethods && EditorMethods !! SchComponentMethods
  {
  }

  lemma SchWireUnmerged()
    ensures PourFillMethods !! SchWireMethods && PcbPrimitiveMethods !! SchWireMethods && EditorMethods !! SchWireMethods
  {
  }

  lemma SchDocumentUnmerged()
    ensures PourFillMethods !! SchDocumentMethods && PcbPrimitiveMethods !! SchDocumentMethods && EditorMethods !! SchDocumentMethods
  {
  }

  lemma SchSelectUnmerged()
    ensures PourFillMethods !! SchSelectMethods && PcbPrimitiveMethods !! SchSelectMethods && EditorMethods !! SchSelectMethods
  {
  }

  lemma SchPrimitiveUnmerged()
    ensures PourFillMethods !! SchPrimitiveMethods && PcbPrimitiveMethods !! SchPrimitiveMethods && EditorMethods !! SchPrimitiveMethods
  {
  }

  lemma LibraryUnmerged()
    ensures PourFillMethods !! LibraryMethods && PcbPrimitiveMethods !! LibraryMethods && EditorMethods !! LibraryMethods
  {
  }


  /** No name of an unmerged table is in one of the six PCB tables. */
  lemma UnmergedNotInPcbTables()
    ensures forall i :: 0 <= i < 6 ==> UnmergedNames !! MergedNameTables[i]
  {
    ComponentUnmerged();
    TrackUnmerged();
    ViaUnmerged();
    NetUnmerged();
    DrcUnmerged();
    DocumentUnmerged();
  }

  /** No name of an unmerged table is in one of the six schematic and library tables. */
  lemma UnmergedNotInSchematicTables()
    ensures forall i :: 6 <= i < 12 ==> UnmergedNames !! MergedNameTables[i]
  {
    SchComponentUnmerged();
    SchWireUnmerged();
    SchDocumentUnmerged();
    SchSelectUnmerged();
    SchPrimitiveUnmerged();
    LibraryUnmerged();
  }

  /** No name of an unmerged table is in any of the twelve merged tables. */
  lemma UnmergedNamesAreNotMerged()
    ensures forall i :: 0 <= i < |MergedNameTables| ==> UnmergedNames !! MergedNameTables[i]
  {
    UnmergedNotInPcbTables();
    UnmergedNotInSchematicTables();
  }
}
