/** The two editor handlers that reshape host data: the list of open tabs collected from the
    split-screen tree, and the description of the current document. The host calls are
    replaced by the values they resolve to. */
module Editor {
  import opened Json

  /** One element of `tabs` in the `editor.getOpenTabs` answer. */
  datatype TabEntry = TabEntry(title: Value, tabId: Value, isActive: bool)

  /** The `editor.getOpenTabs` answer: `{ tabs, splitScreenTree }`. */
  datatype OpenTabs = OpenTabs(tabs: seq<TabEntry>, splitScreenTree: Value)

  /** `s.startsWith(prefix)` */
  predicate StartsWith(s: string, prefix: string) {
    |prefix| <= |s| && s[..|prefix|] == prefix
  }

  /** Two steps that may throw, run one after the other: the first error wins, otherwise
      the outputs are concatenated. */
  function Then<T>(a: Result<seq<T>>, b: Result<seq<T>>): (r: Result<seq<T>>)
    ensures r.Ok? <==> a.Ok? && b.Ok?
    ensures r.Ok? ==> r.value == a.value + b.value
    ensures a.Err? ==> r == Err(a.error)
    ensures a.Ok? && b.Err? ==> r == Err(b.error)
  {
    if a.Err? then Err(a.error) else if b.Err? then Err(b.error) else Ok(a.value + b.value)
  }

  lemma ThenAssociative<T>(a: Result<seq<T>>, b: Result<seq<T>>, c: Result<seq<T>>)
    ensures Then(Then(a, b), c) == Then(a, Then(b, c))
  {
    if a.Ok? && b.Ok? && c.Ok? {
      assert (a.value + b.value) + c.value == a.value + (b.value + c.value);
    }
  }

  /** The elements `for (const x of v)` visits: the items of an array or the characters of
      a string; anything else is not iterable and throws. */
  function Elements(v: Value): (r: Result<seq<Value>>)
    ensures r.Ok? <==> v.Arr? || v.Str?
    ensures v.Arr? ==> r == Ok(v.items)
    ensures v.Str? ==> r.Ok? && |r.value| == |v.s| && forall i :: 0 <= i < |v.s| ==> r.value[i] == Str([v.s[i]])
    ensures r.Err? ==> r.error == TypeError
  {
    match v
    case Arr(items) => Ok(items)
    case Str(s) => Ok(seq(|s|, i requires 0 <= i < |s| => Str([s[i]])))
    case _ => Err(TypeError)
  }

  /** `currentDoc?.uuid` */
  function ActiveUuid(currentDoc: Value): Value {
    if Nullish(currentDoc) then Undefined else Get(currentDoc, "uuid")
  }

  /** The entry pushed for one tab. Reading a property of a null or undefined tab throws, and
      when the uuid is truthy so does `tab.tabId.startsWith` if the tab id is no string, and
      `startsWith` itself if the uuid has no string value. */
  function TabOf(tab: Value, activeUuid: Value): (r: Result<TabEntry>)
    ensures r.Ok? <==> !Nullish(tab) && (Truthy(activeUuid) ==> Get(tab, "tabId").Str? && Stringable(activeUuid))
    ensures r.Err? ==> r.error == TypeError
    ensures r.Ok? ==> r.value.title == Get(tab, "title") && r.value.tabId == Get(tab, "tabId")
    ensures r.Ok? ==> (r.value.isActive <==>
      Truthy(activeUuid) && Stringable(activeUuid) && StartsWith(Get(tab, "tabId").s, JsString(activeUuid)))
  {
    if Nullish(tab) then Err(TypeError)
    else if !Truthy(activeUuid) then Ok(TabEntry(Get(tab, "title"), Get(tab, "tabId"), false))
    else match Get(tab, "tabId")
      case Str(id) =>
        if Stringable(activeUuid) then Ok(TabEntry(Get(tab, "title"), Str(id), StartsWith(id, JsString(activeUuid))))
        else Err(TypeError)
      case _ => Err(TypeError)
  }

  /** The entries for a run of raw tabs, in order, or the first error. */
  function ConvertTabs(raw: seq<Value>, activeUuid: Value): (r: Result<seq<TabEntry>>)
    ensures r.Err? ==> r.error == TypeError
    decreases |raw|
  {
    if raw == [] then Ok([])
    else
      var head := TabOf(raw[0], activeUuid);
      Then(if head.Err? then Err(head.error) else Ok([head.value]), ConvertTabs(raw[1..], activeUuid))
  }

  /** `ConvertTabs` after a step that may already have thrown. */
  function Convert(raw: Result<seq<Value>>, activeUuid: Value): (r: Result<seq<TabEntry>>)
    ensures raw.Err? ==> r == Err(raw.error)
    ensures raw.Ok? ==> r == ConvertTabs(raw.value, activeUuid)
  {
    if raw.Err? then Err(raw.error) else ConvertTabs(raw.value, activeUuid)
  }

  /** The tabs of a node itself: `node.tabs` when truthy, otherwise none. */
  function OwnTabs(node: Value): (r: Result<seq<Value>>)
    ensures r.Err? ==> r.error == TypeError
  {
    var tabs := Get(node, "tabs");
    if Truthy(tabs) then Elements(tabs) else Ok([])
  }

  /** The raw tab values of the subtree of `node`, in the order `collectTabs` visits them:
      the node's own tabs first, then each child's subtree in order (preorder). Reading
      `tabs` of a null or undefined node throws. */
  function RawTabs(node: Value): (r: Result<seq<Value>>)
    ensures r.Err? ==> r.error == TypeError
    decreases node, 2
  {
    if Nullish(node) then Err(TypeError) else Then(OwnTabs(node), ChildTabs(node))
  }

  /** The raw tabs below `node`. A string of children iterates characters, and a character
      has neither tabs nor children. */
  function ChildTabs(node: Value): (r: Result<seq<Value>>)
    ensures r.Err? ==> r.error == TypeError
    decreases node, 1
  {
    var kids := Get(node, "children");
    if !Truthy(kids) then Ok([])
    else match kids
      case Arr(items) => ChildrenRaw(node, items, |items|)
      case Str(_) => Ok([])
      case _ => Err(TypeError)
  }

  /** The raw tabs of the subtrees of the first `n` children. */
  function ChildrenRaw(node: Value, items: seq<Value>, n: nat): (r: Result<seq<Value>>)
    requires Get(node, "children") == Arr(items) && n <= |items|
    ensures r.Err? ==> r.error == TypeError
    decreases node, 0, n
  {
    if n == 0 then Ok([]) else Then(ChildrenRaw(node, items, n - 1), RawTabs(items[n - 1]))
  }

  /** What collecting the tabs of `node` pushes, or the error it throws. */
  function CollectedTabs(node: Value, activeUuid: Value): Result<seq<TabEntry>> {
    Convert(RawTabs(node), activeUuid)
  }

  /** Converting two runs of raw tabs converts each in turn. */
  lemma {:induction false} ConvertTabsAppend(x: seq<Value>, y: seq<Value>, activeUuid: Value)
    ensures ConvertTabs(x + y, activeUuid) == Then(ConvertTabs(x, activeUuid), ConvertTabs(y, activeUuid))
    decreases |x|
  {
    if x == [] {
      assert x + y == y;
      var cy := ConvertTabs(y, activeUuid);
      if cy.Ok? {
        assert [] + cy.value == cy.value;
      }
    } else {
      assert (x + y)[1..] == x[1..] + y;
      assert (x + y)[0] == x[0];
      ConvertTabsAppend(x[1..], y, activeUuid);
      var head := TabOf(x[0], activeUuid);
      ThenAssociative(if head.Err? then Err(head.error) else Ok([head.value]),
        ConvertTabs(x[1..], activeUuid), ConvertTabs(y, activeUuid));
    }
  }

  /** Converting after two steps that may throw: because every error is a TypeError, it
      does not matter whether the structure or a tab throws first. */
  lemma ConvertThen(a: Result<seq<Value>>, b: Result<seq<Value>>, activeUuid: Value)
    requires a.Err? ==> a.error == TypeError
    requires b.Err? ==> b.error == TypeError
    ensures Convert(Then(a, b), activeUuid) == Then(Convert(a, activeUuid), Convert(b, activeUuid))
  {
    if a.Ok? && b.Ok? {
      ConvertTabsAppend(a.value, b.value, activeUuid);
    }
  }

  /** Each raw tab gives exactly one entry, at the same position. */
  lemma {:induction false} ConvertTabsSpec(raw: seq<Value>, activeUuid: Value)
    ensures ConvertTabs(raw, activeUuid).Ok? <==>
      forall i :: 0 <= i < |raw| ==> TabOf(raw[i], activeUuid).Ok?
    ensures ConvertTabs(raw, activeUuid).Ok? ==>
      && |ConvertTabs(raw, activeUuid).value| == |raw|
      && forall i :: 0 <= i < |raw| ==>
        ConvertTabs(raw, activeUuid).value[i] == TabOf(raw[i], activeUuid).value
    decreases |raw|
  {
    if raw != [] {
      ConvertTabsSpec(raw[1..], activeUuid);
      assert forall i :: 1 <= i < |raw| ==> raw[i] == raw[1..][i - 1];
      if ConvertTabs(raw, activeUuid).Ok? {
        var ts := ConvertTabs(raw, activeUuid).value;
        assert ts == [TabOf(raw[0], activeUuid).value] + ConvertTabs(raw[1..], activeUuid).value;
      }
    }
  }

  /** Once a child's subtree throws, collecting the remaining children still throws. */
  lemma {:induction false} ChildrenErrorPersists(node: Value, items: seq<Value>, n: nat, m: nat,
      activeUuid: Value)
    requires Get(node, "children") == Arr(items) && n <= m <= |items|
    requires Convert(ChildrenRaw(node, items, n), activeUuid).Err?
    ensures Convert(ChildrenRaw(node, items, m), activeUuid).Err?
    decreases m
  {
    if m > n {
      ChildrenErrorPersists(node, items, n, m - 1, activeUuid);
      ConvertThen(ChildrenRaw(node, items, m - 1), RawTabs(items[m - 1]), activeUuid);
    }
  }

  /** One turn of the children loop: a child's walk either appends that child's entries or
      throws, and then the whole walk throws. */
  lemma ChildStep(node: Value, children: seq<Value>, j: nat, activeUuid: Value,
                  tabs: seq<TabEntry>, acc: seq<TabEntry>, sub: Result<seq<TabEntry>>)
    requires Get(node, "children") == Arr(children) && j < |children|
    requires Convert(ChildrenRaw(node, children, j), activeUuid).Ok?
    requires acc == tabs + Convert(ChildrenRaw(node, children, j), activeUuid).value
    requires sub == Then(Ok(acc), CollectedTabs(children[j], activeUuid))
    ensures sub.Ok? ==>
      && Convert(ChildrenRaw(node, children, j + 1), activeUuid).Ok?
      && sub.value == tabs + Convert(ChildrenRaw(node, children, j + 1), activeUuid).value
    ensures sub.Err? ==> Convert(ChildrenRaw(node, children, |children|), activeUuid).Err?
  {
    ConvertThen(ChildrenRaw(node, children, j), RawTabs(children[j]), activeUuid);
    if sub.Err? {
      ChildrenErrorPersists(node, children, j + 1, |children|, activeUuid);
    } else {
      var before, child := Convert(ChildrenRaw(node, children, j), activeUuid).value,
                           CollectedTabs(children[j], activeUuid).value;
      assert (tabs + before) + child == tabs + (before + child);
    }
  }

  /** Converting one more tab of a run appends its entry. */
  lemma ConvertTabsSnoc(raw: seq<Value>, i: nat, activeUuid: Value)
    requires i < |raw| && ConvertTabs(raw[..i], activeUuid).Ok? && TabOf(raw[i], activeUuid).Ok?
    ensures ConvertTabs(raw[..i + 1], activeUuid)
         == Ok(ConvertTabs(raw[..i], activeUuid).value + [TabOf(raw[i], activeUuid).value])
  {
    assert raw[..i + 1] == raw[..i] + [raw[i]];
    var entry := TabOf(raw[i], activeUuid).value;
    assert [raw[i]][0] == raw[i] && [raw[i]][1..] == [] && [entry] + [] == [entry];
    assert ConvertTabs([raw[i]], activeUuid) == Ok([entry]);
    ConvertTabsAppend(raw[..i], [raw[i]], activeUuid);
  }

  /** `collectTabs(node)`, pushing onto the captured array that holds `tabs` so far. */
  method CollectTabs(node: Value, activeUuid: Value, tabs: seq<TabEntry>)
    returns (r: Result<seq<TabEntry>>)
    ensures r == Then(Ok(tabs), CollectedTabs(node, activeUuid))
    decreases node, 1
  {
    if Nullish(node) {
      return Err(TypeError);
    }
    ConvertThen(OwnTabs(node), ChildTabs(node), activeUuid);
    var afterOwn := PushOwnTabs(node, activeUuid, tabs);
    if afterOwn.Err? {
      return afterOwn;
    }
    r := PushChildTabs(node, activeUuid, afterOwn.value);
    ThenAssociative(Ok(tabs), Convert(OwnTabs(node), activeUuid), Convert(ChildTabs(node), activeUuid));
  }

  /** The `node.tabs` loop of `collectTabs`. */
  method PushOwnTabs(node: Value, activeUuid: Value, tabs: seq<TabEntry>)
    returns (r: Result<seq<TabEntry>>)
    ensures r == Then(Ok(tabs), Convert(OwnTabs(node), activeUuid))
  {
    var own := Get(node, "tabs");
    if !Truthy(own) {
      assert tabs + [] == tabs;
      return Ok(tabs);
    }
    var elements := Elements(own);
    if elements.Err? {
      return Err(TypeError);
    }
    var items := elements.value;
    var acc := tabs;
    for i := 0 to |items|
      invariant ConvertTabs(items[..i], activeUuid).Ok?
      invariant acc == tabs + ConvertTabs(items[..i], activeUuid).value
    {
      var entry := TabOf(items[i], activeUuid);
      if entry.Ok? {
        ConvertTabsSnoc(items, i, activeUuid);
      }
      if entry.Err? {
        ConvertTabsSpec(items, activeUuid);
        return Err(TypeError);
      }
      acc := acc + [entry.value];
    }
    assert items[..|items|] == items;
    r := Ok(acc);
  }

  /** The `node.children` branch of `collectTabs`. */
  method PushChildTabs(node: Value, activeUuid: Value, tabs: seq<TabEntry>)
    returns (r: Result<seq<TabEntry>>)
    ensures r == Then(Ok(tabs), Convert(ChildTabs(node), activeUuid))
    decreases node, 0
  {
    var kids := Get(node, "children");
    if !Truthy(kids) {
      assert tabs + [] == tabs;
      return Ok(tabs);
    }
    match kids {
      case Arr(children) =>
        r := PushChildren(node, children, activeUuid, tabs);
      case Str(_) =>
        assert tabs + [] == tabs;
        r := Ok(tabs);
      case _ =>
        r := Err(TypeError);
    }
  }

  /** The `for (const child of node.children)` loop over an array of children. */
  method PushChildren(node: Value, children: seq<Value>, activeUuid: Value, tabs: seq<TabEntry>)
    returns (r: Result<seq<TabEntry>>)
    requires Get(node, "children") == Arr(children)
    ensures r == Then(Ok(tabs), Convert(ChildrenRaw(node, children, |children|), activeUuid))
    decreases node, 0, 0
  {
    var acc := tabs;
    for j := 0 to |children|
      invariant Convert(ChildrenRaw(node, children, j), activeUuid).Ok?
      invariant acc == tabs + Convert(ChildrenRaw(node, children, j), activeUuid).value
    {
      var sub := CollectTabs(children[j], activeUuid, acc);
      ChildStep(node, children, j, activeUuid, tabs, acc, sub);
      if sub.Err? {
        return Err(TypeError);
      }
      acc := sub.value;
    }
    r := Ok(acc);
  }

  /** Every collected entry keeps the title and tab id of its raw tab, in preorder, and is
      active iff the current document has a uuid that the tab id starts with. */
  lemma CollectedTabsSpec(node: Value, activeUuid: Value)
    requires CollectedTabs(node, activeUuid).Ok?
    ensures RawTabs(node).Ok?
    ensures var raw, ts := RawTabs(node).value, CollectedTabs(node, activeUuid).value;
      && |ts| == |raw|
      && forall i :: 0 <= i < |ts| ==>
        && ts[i].title == Get(raw[i], "title")
        && ts[i].tabId == Get(raw[i], "tabId")
        && (ts[i].isActive <==>
             (Truthy(activeUuid) && Stringable(activeUuid) && Get(raw[i], "tabId").Str?
              && StartsWith(Get(raw[i], "tabId").s, JsString(activeUuid))))
  {
    ConvertTabsSpec(RawTabs(node).value, activeUuid);
  }

  /** With no document uuid, no tab is active. */
  lemma NoUuidNoActiveTab(node: Value, currentDoc: Value)
    requires !Truthy(ActiveUuid(currentDoc)) && CollectedTabs(node, ActiveUuid(currentDoc)).Ok?
    ensures forall t :: t in CollectedTabs(node, ActiveUuid(currentDoc)).value ==> !t.isActive
  {
    CollectedTabsSpec(node, ActiveUuid(currentDoc));
  }

  /** `editor.getOpenTabs` once the split-screen tree and the current document are known. */
  method GetOpenTabs(tree: Value, currentDoc: Value) returns (r: Result<OpenTabs>)
    ensures !Truthy(tree) ==> r == Ok(OpenTabs([], tree))
    ensures Truthy(tree) ==> (r.Err? <==> CollectedTabs(tree, ActiveUuid(currentDoc)).Err?)
    ensures Truthy(tree) && r.Ok? ==>
      r.value == OpenTabs(CollectedTabs(tree, ActiveUuid(currentDoc)).value, tree)
  {
    var activeUuid := ActiveUuid(currentDoc);
    var tabs: seq<TabEntry> := [];
    if Truthy(tree) {
      var collected := CollectTabs(tree, activeUuid, tabs);
      if collected.Err? {
        return Err(collected.error);
      }
      tabs := collected.value;
    }
    r := Ok(OpenTabs(tabs, tree));
  }

  /** `editor.getCurrentDocument`, given the current document and what the schematic-page,
      schematic, PCB and board queries resolve to. */
  method GetCurrentDocument(doc: Value, page: Value, schematic: Value, pcb: Value, board: Value)
    returns (result: map<string, Value>)
    ensures !Truthy(doc) ==> result == map["document" := Undefined]
    ensures Truthy(doc) ==>
      (result.Keys ==
        {"document"}
        + (if Get(doc, "documentType") == Num(1) then {"schematicPage", "schematic"} else {})
        + (if Get(doc, "documentType") == Num(3) then {"pcb", "board"} else {}))
    ensures Truthy(doc) ==> result["document"] == doc
    ensures "schematicPage" in result ==> result["schematicPage"] == page && result["schematic"] == schematic
    ensures "pcb" in result ==> result["pcb"] == pcb && result["board"] == board
  {
    if !Truthy(doc) {
      return map["document" := Undefined];
    }
    result := map["document" := doc];
    if Get(doc, "documentType") == Num(1) {
      result := result["schematicPage" := page];
      result := result["schematic" := schematic];
    }
    if Get(doc, "documentType") == Num(3) {
      result := result["pcb" := pcb];
      result := result["board" := board];
    }
  }

  /** A root holding tab A with one child holding tab B. */
  const ExampleTabA := Obj(map["title" := Str("A"), "tabId" := Str("doc1@1")])
  const ExampleTabB := Obj(map["title" := Str("B"), "tabId" := Str("pcb7")])
  const ExampleChild := Obj(map["tabs" := Arr([ExampleTabB])])
  const ExampleRoot := Obj(map["tabs" := Arr([ExampleTabA]), "children" := Arr([ExampleChild])])

  /** The walk visits the root's tab before its child's. */
  lemma ExampleRawTabs()
    ensures RawTabs(ExampleRoot) == Ok([ExampleTabA, ExampleTabB])
  {
    var root, child := ExampleRoot, ExampleChild;
    assert [] + [ExampleTabB] == [ExampleTabB] && [ExampleTabB] + [] == [ExampleTabB];
    assert [ExampleTabA] + [ExampleTabB] == [ExampleTabA, ExampleTabB];
    assert OwnTabs(child) == Ok([ExampleTabB]) && ChildTabs(child) == Ok([]);
    assert RawTabs(child) == Ok([ExampleTabB]);
    assert ChildrenRaw(root, [child], 0) == Ok([]) && [child][0] == child;
    assert ChildrenRaw(root, [child], 1) == Ok([ExampleTabB]);
    assert OwnTabs(root) == Ok([ExampleTabA]);
  }

  /** Only the tab whose id starts with the document uuid is active. */
  lemma ExampleCollectedTabs()
    ensures CollectedTabs(ExampleRoot, Str("doc1")) ==
      Ok([TabEntry(Str("A"), Str("doc1@1"), true), TabEntry(Str("B"), Str("pcb7"), false)])
  {
    ExampleRawTabs();
    var entryA, entryB := TabEntry(Str("A"), Str("doc1@1"), true), TabEntry(Str("B"), Str("pcb7"), false);
    assert "pcb7"[..4][0] != "doc1"[0];
    assert StartsWith("doc1@1", "doc1") && !StartsWith("pcb7", "doc1");
    assert TabOf(ExampleTabA, Str("doc1")) == Ok(entryA);
    assert TabOf(ExampleTabB, Str("doc1")) == Ok(entryB);
    ConvertTabsSpec([ExampleTabA, ExampleTabB], Str("doc1"));
    var ts := CollectedTabs(ExampleRoot, Str("doc1")).value;
    assert ts == [entryA, entryB];
  }
}
