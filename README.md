# EasyEDA agent bridge: a Dafny model

easyeda-agent-mcp-server lets an MCP client drive EasyEDA Pro through two halves:

- **The server.** Its `WebSocketBridge` turns a call `send(method, params)` into a request frame over a WebSocket. It keeps a table of pending calls keyed by a counter-derived id and settles each call when the peer answers, the timer fires or the socket closes.
- **The extension.** It runs inside the editor, looks each request's method up in a handler table merged from partial tables, and answers with exactly one response.

Between them sit the MCP tools. They reshape their validated arguments into the params of one or two bridge calls.

This project models:

- the bridge as a state machine (`Bridge`);
- the extension's dispatcher and handler merge (`WsClient`, `HandlerNames`);
- the netlist reshapers (`SchNetlist`);
- the editor's open-tab walk and current-document description (`Editor`);
- the argument reshaping of the PCB write tools, the design-rule tools and the schematic write tools (`ToolArgs`, `WriteTools`, `PcbDrcTools`, `SchWriteTools`);
- where the PCB write tools' calls land on the extension (`ToolRouting`).

JSON values are the `Json.Value` datatype. It has an extra `Undefined` case and integer numbers. `Truthy`, `Nullish`, `Or` (`||`), `Coalesce` (`??`) and `ToJsString` (`String(v)`) follow JavaScript's rules on it. `String(v)` throws a TypeError for an object with an own `toString` key, and for an array holding one, because such a key of a parsed value is data and not a function.

The model has these inputs:

- Socket events, timer expiries and parsed frames arrive as method calls or as arguments.
- Every settlement of a caller's promise is appended to `WebSocketBridge.settled`.
- The extension's handlers are opaque functions `impl(table, name)`.
- Host-API results are passed in as values.

Differences between the code and its design description (the model follows the code):

- the server binds one fixed port and scans no port window;
- the extension connects to one fixed URL;
- no handler applies the `fields`/`filter`/`limit` post-processing the query schemas describe;
- the bridge checks no origin;
- the unknown-method answer carries no version-skew guidance, only `Unknown method: <method>`;
- the close of any socket rejects every pending call, including the calls sent on a newer socket that is still connected.

Two further facts about the code. They are not listed as findings: no handler exists that a corrected merge could add, and unregistered tools are a deployment choice.

- Some tools send methods that no handler file defines at all: `pcb.create.pad`, `pcb.modify.pad`, `pcb.delete.pad`, `pcb.modify.via`, `pcb.modify.polyline`, `pcb.delete.component`, and the design-rule management methods other than `pcb.drc.getDiffPairs` and `pcb.drc.getEqualLengthGroups`.
- `src/mcp-server/index.ts` registers neither the design-rule tools nor the editor tools.

## Model

| member | source | states |
|---|---|---|
| Json.NatToStringInjective | src/mcp-server/bridge.ts:88 | distinct counter values give distinct `String(n)` ids |
| Json.ToJsString | src/extension/ws-client.ts:45 | `String(v)` succeeds iff the value is stringable, gives a string's own text, and otherwise throws the TypeError |
| Bridge.TimeoutMessage | src/mcp-server/bridge.ts:94 | the timeout reason is `Request timed out after `, then the decimal timeout and `ms: `, then the method name |
| Bridge.DefaultParams | src/mcp-server/bridge.ts:83 | omitted params become `{}`, and given params pass unchanged |
| Bridge.Settle | src/mcp-server/bridge.ts:109-116 | a response resolves with `result` iff its `error` is falsy. A truthy error that `String` converts rejects with that string as the reason. A truthy error with no string conversion makes `new Error(error)` throw after the entry was deleted, so the call is abandoned and never settles |
| Bridge.SettleIntended | src/mcp-server/bridge.ts:109-116 | corrected: a call is never abandoned. Every response that `Settle` resolves or rejects settles the same way, and one that `Settle` abandons is rejected with the TypeError |
| Bridge.EmptyErrorResolves | src/mcp-server/bridge.ts:112-116 | a response whose error is the empty string resolves |
| Bridge.ResponseKey | src/mcp-server/bridge.ts:103 | a parsed frame has a lookup key iff its `id` is a string, and the key is that string; a Map holding string keys finds no other id |
| Bridge.RejectionsAt | src/mcp-server/bridge.ts:65-69 | a bulk rejection settles each pending id exactly once, in Map iteration order, with one reason |
| Bridge.FreshId | src/mcp-server/bridge.ts:88 | the next id `String(counter + 1)` was never issued before |
| Bridge.SettleKeepsIssued | src/mcp-server/bridge.ts:109-110 | moving one pending id to the settled log keeps every issued id either pending or settled, and settled at most once |
| Bridge.Without | src/mcp-server/bridge.ts:68 | deleting a key removes exactly that key from the iteration order and keeps the others distinct |
| Bridge.Socket.Close | src/mcp-server/bridge.ts:127 | `close()` moves a socket that is not closed to closing and writes nothing |
| Bridge.Socket.Transmit | src/mcp-server/bridge.ts:98 | an open socket gets exactly the request appended to what it was sent, and stays open |
| Bridge.WebSocketBridge.constructor | src/mcp-server/bridge.ts:21-30 | a new bridge has no client, an empty table and a zero counter, with the given port and timeout |
| Bridge.WebSocketBridge.IsConnected | src/mcp-server/bridge.ts:79-81 | the bridge is connected iff it has a client socket whose state is open |
| Bridge.WebSocketBridge.OnConnection | src/mcp-server/bridge.ts:46-48 | the newest socket becomes the client; the table, the counter and the settlements are unchanged |
| Bridge.WebSocketBridge.Send | src/mcp-server/bridge.ts:83-100 | not connected: the "not connected" error, with counter, table and socket unchanged. Connected: the counter goes up by one, the id is fresh and not pending, exactly one entry is added under it, its timer is armed, and the request `{id, method, params or {}}` is written |
| Bridge.WebSocketBridge.OnMessage | src/mcp-server/bridge.ts:50-57 | an unparsable frame, or one whose id is not pending, changes nothing. A pending id is removed with its timer and appended once to the settlements as `Settle` says, abandonment included |
| Bridge.WebSocketBridge.OnMessageIntended | src/mcp-server/bridge.ts:102-117 | corrected: the same state change as `OnMessage`, but settled by `SettleIntended`, so no abandoned settlement is ever appended |
| Bridge.WebSocketBridge.OnTimeout | src/mcp-server/bridge.ts:92-95 | only the timed-out id is removed, and it is rejected with `Request timed out after <timeout>ms: <method>` |
| Bridge.WebSocketBridge.RejectAll | src/mcp-server/bridge.ts:65-69 | every timer is cleared and every pending call is rejected in iteration order; the table ends empty |
| Bridge.WebSocketBridge.OnClose | src/mcp-server/bridge.ts:59-70 | the client is cleared only if the closing socket is the current one, yet every pending call is rejected as disconnected |
| Bridge.WebSocketBridge.Stop | src/mcp-server/bridge.ts:119-129 | every pending call is rejected as shutting down. The client socket is asked to close, with nothing more written to it, and then the client is cleared |
| Bridge.LateResponseAfterTimeout | src/mcp-server/bridge.ts:92-95 | a call whose timer fired is settled once; the peer's later answer is ignored |
| Bridge.CloseOfReplacedSocket | src/mcp-server/bridge.ts:59-70 | closing a replaced socket rejects the calls sent on its successor, and the successor stays connected |
| Bridge.MalformedErrorAbandonsCall | src/mcp-server/bridge.ts:109-113 | as written: a reply whose error is `{"toString": 1}` deletes the call's entry and timer, and the call is abandoned, never to settle |
| Bridge.MalformedErrorRejectsCall | src/mcp-server/bridge.ts:109-116 | corrected: the same reply rejects the call with the TypeError |
| WsClient.ComposeSpec | src/extension/ws-client.ts:17-30 | a spread-merge holds a key iff some table does, with the value from the last table holding it |
| WsClient.Compose | src/extension/ws-client.ts:17-30 | every entry of the last spread table is in the merge unchanged |
| WsClient.HandlersKeys | src/extension/ws-client.ts:17-30 | a method is in the merged table iff one of the merged partial tables names it |
| WsClient.HandlersLastWins | src/extension/ws-client.ts:17-30 | a method maps to the implementation of the last partial table that names it |
| WsClient.AllHandlers | src/extension/ws-client.ts:17-30 | a method is a key of `allHandlers` iff one of the twelve spread tables names it |
| WsClient.UnmergedMethodsAreUnknown | src/extension/ws-client.ts:1-30 | the methods that only the pour/fill, PCB-primitive and editor tables define are absent from `allHandlers` |
| WsClient.SendResponse | src/extension/ws-client.ts:67-75 | the response has `error` iff the error is truthy, and `result` otherwise, never both |
| WsClient.RequestId | src/extension/ws-client.ts:41 | `request.id` is the id field of a parsed object, and undefined when there is none |
| WsClient.MethodKey | src/extension/ws-client.ts:42-45 | the lookup key is `String(request.method)`; a string method is its own key, and a method with no string conversion throws the TypeError |
| WsClient.HandlerParams | src/extension/ws-client.ts:43 | `request.params || {}` is always truthy. It is the params when they are truthy, and `{}` otherwise |
| WsClient.OnMessage | src/extension/ws-client.ts:36-59 | an unparsable or null request gets no response. A method with no string conversion runs no handler and answers the TypeError iff `id` is truthy. An unknown method gets exactly `{id, error: "Unknown method: " + method}`, and no handler runs. A known method runs its handler once with `params` or `{}`. Success answers `{id, result}`, and a throw answers with its message only when `id` is truthy |
| WsClient.EmptyThrowAnswersWithResult | src/extension/ws-client.ts:53-58 | a handler that throws an empty message gets a result response, because the empty error is falsy |
| HandlerNames.UnmergedNamesAreNotMerged | src/extension/ws-client.ts:17-30 | no method of the pour/fill, PCB-primitive or editor table is named by any merged table |
| SchNetlist.Entries | src/extension/handlers/sch-netlist-utils.ts:15 | `Object.entries` throws on null or undefined. It gives an object's fields, an array's elements or a string's one-character strings under their decimal indices, and nothing for a number or boolean |
| SchNetlist.IndexEntriesSpec | src/extension/handlers/sch-netlist-utils.ts:15 | an array's entries are exactly its decimal indices, each mapped to its element |
| SchNetlist.FetchParsedNetlist | src/extension/handlers/sch-netlist-utils.ts:11-26 | a null or undefined netlist throws. Otherwise the keys are exactly the entries that are truthy objects, except `__proto__`, which creates no own key. Each record holds `Designator`, `Name` and `Manufacturer Part` of `props or {}` (or `''`), and `pins or {}` |
| SchNetlist.CollectComponents | src/extension/handlers/sch-netlist-utils.ts:15-24 | the entries loop stores exactly the kept entries other than `__proto__`, each with the record of its entry |
| SchNetlist.ComponentOf | src/extension/handlers/sch-netlist-utils.ts:17-23 | the stored record describes its entry field by field; its `pins` is always truthy, and is the entry's own `pins` whenever that is truthy |
| SchNetlist.RecordEntry | src/extension/handlers/sch-netlist-utils.ts:15-24 | one turn of the entries loop keeps the result equal to the visited kept keys, each described by its entry |
| SchNetlist.FetchPinNames | src/extension/handlers/sch-netlist-utils.ts:28-40 | a non-array gives `{}`. An array throws iff some pin is null or undefined, or has a number with no string conversion. Otherwise the keys are exactly `String(pinNumber)` of the numbered pins, except `__proto__`, and the last such pin gives the name (`pinName` or `''`) |
| SchNetlist.RecordPins | src/extension/handlers/sch-netlist-utils.ts:32-37 | the pin loop throws iff some pin fails, and otherwise holds exactly the recorded keys with the last name given to each |
| SchNetlist.RecordPin | src/extension/handlers/sch-netlist-utils.ts:34-36 | one turn over a pin that does not fail keeps the loop's state: no failure so far, the recorded keys, the last names |
| SchNetlist.DuplicatePinNumber | src/extension/handlers/sch-netlist-utils.ts:32-35 | of two pins numbered 1, the later name wins |
| SchNetlist.UnnumberedPinSkipped | src/extension/handlers/sch-netlist-utils.ts:34-35 | a pin without a number is skipped, and a missing name becomes `''` |
| SchNetlist.ProtoPinNumberCreatesNoKey | src/extension/handlers/sch-netlist-utils.ts:35 | a pin numbered `__proto__` leaves the table empty |
| SchNetlist.UnconvertiblePinNumberThrows | src/extension/handlers/sch-netlist-utils.ts:35 | a pin number with an own `toString` key makes the lookup throw |
| Editor.Then | src/extension/handlers/editor.ts:54-69 | two steps that may throw succeed iff both do, and their outputs are concatenated; otherwise the first error wins |
| Editor.ThenAssociative | src/extension/handlers/editor.ts:54-69 | the pushes of a walk can be grouped in any way |
| Editor.Elements | src/extension/handlers/editor.ts:56 | `for...of` visits an array's items, or a string's characters as one-character strings, in order, and throws on anything else |
| Editor.TabOf | src/extension/handlers/editor.ts:57-61 | a tab entry keeps `title` and `tabId`, and is active iff the uuid is truthy and `tabId` starts with `String(uuid)`. A null or undefined tab throws. When a uuid is set, a non-string id or a uuid with no string conversion throws too |
| Editor.ConvertTabsSpec | src/extension/handlers/editor.ts:56-61 | each raw tab gives exactly one entry at the same position, and the conversion fails iff some tab does |
| Editor.ConvertTabsAppend | src/extension/handlers/editor.ts:56-61 | converting two runs of tabs converts each in turn |
| Editor.ConvertThen | src/extension/handlers/editor.ts:54-69 | because every throw is a TypeError, converting after two steps equals converting each step |
| Editor.ChildrenErrorPersists | src/extension/handlers/editor.ts:64-68 | once one child's subtree throws, the walk over the remaining children still throws |
| Editor.ChildStep | src/extension/handlers/editor.ts:65-67 | one turn of the children loop appends that child's subtree, or throws and leaves the whole walk throwing |
| Editor.CollectTabs | src/extension/handlers/editor.ts:54-69 | the walk appends to what was pushed so far exactly the preorder conversion of the subtree: own tabs first, then each child in order |
| Editor.PushOwnTabs | src/extension/handlers/editor.ts:55-63 | the `node.tabs` loop pushes the converted own tabs in order, or throws |
| Editor.PushChildTabs | src/extension/handlers/editor.ts:64-68 | the `node.children` branch pushes the children's subtrees, pushes nothing when the children are falsy or a string, and throws on another non-iterable |
| Editor.PushChildren | src/extension/handlers/editor.ts:65-67 | the loop over the children pushes each child's subtree in order |
| Editor.CollectedTabsSpec | src/extension/handlers/editor.ts:54-69 | the collected tabs are as many as the raw tabs of the tree, in preorder; each keeps its title and tab id and is active iff the uuid is a prefix of the tab id |
| Editor.NoUuidNoActiveTab | src/extension/handlers/editor.ts:52-60 | with no current-document uuid, no tab is active |
| Editor.GetOpenTabs | src/extension/handlers/editor.ts:45-76 | a falsy tree gives no tabs. Otherwise the tabs are the collected ones, or the walk's error; the tree is returned unchanged alongside |
| Editor.GetCurrentDocument | src/extension/handlers/editor.ts:10-39 | no document gives `{document: undefined}`. Otherwise the fields are `document`, plus `schematicPage`/`schematic` exactly when documentType is 1, plus `pcb`/`board` exactly when it is 3 |
| Editor.ExampleRawTabs | src/extension/handlers/editor.ts:54-69 | a root's tab is visited before its child's |
| Editor.ExampleCollectedTabs | src/extension/handlers/editor.ts:52-61 | only the tab whose id starts with the document uuid is active |
| ToolArgs.Rest | src/mcp-server/tools/write-tools.ts:189 | a rest binding holds every argument except the named ones, unchanged |
| ToolArgs.SplitPrimitiveId | src/mcp-server/tools/write-tools.ts:189-190 | the params are exactly `{primitiveId, property}`, where `property` holds every other argument and never `primitiveId` |
| ToolArgs.SplitJoin | src/mcp-server/tools/write-tools.ts:189-190 | putting the id back into `property` gives the original arguments |
| WriteTools.DeleteHandlerMapSpec | src/mcp-server/tools/write-tools.ts:5-15 | the delete enum equals the map's keys, and each maps to `pcb.delete.<type>`, except that `track` maps to `pcb.delete.line` |
| WriteTools.ModifyHandlerMapSpec | src/mcp-server/tools/write-tools.ts:17-25 | the modify enum equals the map's keys, and each maps to `pcb.modify.<type>` |
| WriteTools.CreatePrimitive | src/mcp-server/tools/write-tools.ts:42-43 | a create tool sends `pcb.create.<kind>`, where the kind is what the tool's name gives (a track creates a line, a polyline track a polyline), and forwards its arguments unchanged |
| WriteTools.CreateToolMethodsSpec | src/mcp-server/tools/write-tools.ts:30-170 | every create tool is named `pcb_create_<name>` and sends `pcb.create.<kind>` |
| WriteTools.MoveComponent | src/mcp-server/tools/write-tools.ts:189-190 | sends `pcb.modify.component` with the primitive-id split |
| WriteTools.ModifyTrack | src/mcp-server/tools/write-tools.ts:208-209 | sends `pcb.modify.line` with the primitive-id split |
| WriteTools.ModifyPrimitive | src/mcp-server/tools/write-tools.ts:234-235 | sends `pcb.modify.<type>` with exactly `{primitiveId, property}`; the type only selects the method |
| WriteTools.DeletePrimitives | src/mcp-server/tools/write-tools.ts:253-254 | sends the type's delete method with exactly `{ids}` |
| WriteTools.SavePcb | src/mcp-server/tools/write-tools.ts:267-268 | sends `pcb.document.save` with exactly `{uuid}` |
| PcbDrcTools.TablesCoverActions | src/mcp-server/tools/pcb-drc-tools.ts:5-53 | the rule-config, net-rules, net-class, equal-length and pad-pair enums are covered by their tables |
| PcbDrcTools.ModifyNetsIsTheOnlyUntabledAction | src/mcp-server/tools/pcb-drc-tools.ts:33-38 | `modify_nets` is the only diff-pair action that the table lacks |
| PcbDrcTools.ForwardAction | src/mcp-server/tools/pcb-drc-tools.ts:81-82 | the looked-up method gets every argument except `action`, unchanged |
| PcbDrcTools.DiffPairFields | src/mcp-server/tools/pcb-drc-tools.ts:164 | the other diff-pair actions send exactly the five fields `name`, `positiveNet`, `negativeNet`, `originalName`, `newName` |
| PcbDrcTools.ManageDiffPairs | src/mcp-server/tools/pcb-drc-tools.ts:153-166 | `modify_nets` sends the positive-net call iff `positiveNet` is defined, then the negative-net call iff `negativeNet` is defined. A rejected call rejects the tool with that call's error and stops it. The result has `positive`/`negative` exactly for the calls made. Every other action makes one call |
| SchWriteTools.Forward | src/mcp-server/tools/sch-write-tools.ts:23-24 | the component, net-flag and net-port tools forward their arguments unchanged |
| SchWriteTools.Parameterless | src/mcp-server/tools/sch-write-tools.ts:234 | the parameterless tools' calls reach the extension with the bridge's default `{}` |
| SchWriteTools.ModifyComponent | src/mcp-server/tools/sch-write-tools.ts:98-99 | sends `sch.component.modify` with the primitive-id split |
| SchWriteTools.IdsOnly | src/mcp-server/tools/sch-write-tools.ts:73-74 | the delete tools send exactly `{ids}` |
| SchWriteTools.DeleteComponent | src/mcp-server/tools/sch-write-tools.ts:73-74 | sends `sch.component.delete` with exactly `{ids}` |
| SchWriteTools.DeleteWire | src/mcp-server/tools/sch-write-tools.ts:143-144 | sends `sch.wire.delete` with exactly `{ids}` |
| SchWriteTools.SelectPrimitives | src/mcp-server/tools/sch-write-tools.ts:184-185 | sends exactly `{primitiveIds}` |
| SchWriteTools.SetNetlist | src/mcp-server/tools/sch-write-tools.ts:249-250 | sends exactly `{type, netlist}` |
| SchWriteTools.CrossProbeSelect | src/mcp-server/tools/sch-write-tools.ts:217-224 | `highlight` and `select` become true when not given and keep an explicit value, false included; the three lists pass through |
| SchWriteTools.LineTypeNumber | src/mcp-server/tools/sch-write-tools.ts:120-128 | `Number` of an enum string is the number 0 to 3 whose decimal form it is |
| SchWriteTools.LineTypeRoundTrip | src/mcp-server/tools/sch-write-tools.ts:128 | the converted line type renders back as the given string |
| SchWriteTools.WithLineType | src/mcp-server/tools/sch-write-tools.ts:126-129 | the record is the copied rest, plus `lineType` as a number exactly when it was given |
| SchWriteTools.CreateWire | src/mcp-server/tools/sch-write-tools.ts:125-130 | every other argument is copied unchanged; a given `lineType` becomes its number, and an absent one leaves no key |
| SchWriteTools.ModifyWire | src/mcp-server/tools/sch-write-tools.ts:166-171 | sends `{primitiveId, property}`: `property` holds every other argument and never `primitiveId`, with `lineType` converted |
| ToolRouting.PolygonWriteMethods | src/mcp-server/tools/write-tools.ts:5-25 | the create, modify and delete methods of a pour, fill, arc or region are names of the pour/fill or PCB-primitive handler table |
| ToolRouting.PolygonCreateMethod | src/mcp-server/tools/write-tools.ts:119-170 | the create tool of a pour, fill, arc or region sends `pcb.create.<type>` |
| ToolRouting.PolygonMethodNames | src/extension/handlers/pour-fill.ts:12-67 | the create, modify and delete methods of each polygon type are names in the table that implements it |
| ToolRouting.PolygonWritesAreUnknown | src/extension/ws-client.ts:17-30 | as written, each of those calls gets the unknown-method answer |
| ToolRouting.LastTableHolding | src/extension/handlers/pour-fill.ts:1 | no method of the pour/fill or PCB-primitive table is named by a later table |
| ToolRouting.PolygonWritesAreAnswered | src/extension/handlers/pcb-primitive.ts:1 | with every handler table merged, each of those calls reaches the implementation of the table that defines it |

## Left out

- WebSocket I/O, promises and `setTimeout`. Connect, close, response and timer expiry are method calls, and a settlement is a recorded value. A connected socket's `'error'` events only log.
- `JSON.parse` and `JSON.stringify`. Frames are already-parsed values, and an unparsable frame is `None`. The model does not capture serialization dropping keys whose value is undefined, nor the tools rendering their results as JSON text.
- `start`, the listening/error events of the server, and the closing of the server in `stop`: these are library I/O.
- Object key order and Map iteration order as observable output. The pending table's order is kept in `WebSocketBridge.order`.
- Floating-point numbers: numbers are integers.
- The texts of the TypeErrors the engine throws. Every such throw carries the one `Json.TypeError` message, which stands for all of them.
- Inherited prototype members as method names (`allHandlers["toString"]`). The table is a map of own keys. Likewise, assigning to a `__proto__` key replaces the record's prototype instead of creating an own key. The model keeps only own keys, so it leaves out the inherited properties gained that way.
- The `eda.*` host calls inside every handler: handlers are opaque functions, and host results are inputs. The polygon guard of the pour/fill and PCB-primitive create handlers depends on the host API.
- `editor.project.getStructure` and `editor.openDocument`: they only forward to the host.
- `Editor.Elements`: a string's characters are iterated as Dafny characters, not as Unicode code points.
- The read, analysis, schematic-read, library and editor tool files, and `src/mcp-server/index.ts`. They are registration and pure forwarding.
- The zod validation of tool arguments. `TypeIn`, `ActionIn` and `ValidLineType` are the preconditions it guarantees.
- Bridge.WebSocketBridge.Send: the written request carries `params` as given and does not model what `JSON.stringify` drops.
- WsClient.OnMessage: a handler runs to completion before the response is built; interleaving with other messages is not modelled.
- PcbDrcTools.ManageDiffPairs: the result is the value reported before it is rendered as text.

## Findings

| source | as written | input that shows it | evidently intended | confidence | as-written member | corrected member |
|---|---|---|---|---|---|---|
| src/extension/ws-client.ts:17-30 | `allHandlers` spreads twelve tables; the pour/fill and PCB-primitive handler tables are defined but never merged | `pcb_create_pour` (or `pcb_modify_primitive`/`pcb_delete_primitives` with type pour, fill, arc or region) sends `pcb.create.pour`, and the extension answers `Unknown method: pcb.create.pour` | every handler table is merged, so those calls reach their handlers | not executed | ToolRouting.PolygonWritesAreUnknown | ToolRouting.PolygonWritesAreAnswered |
| src/mcp-server/bridge.ts:109-117 | `handleResponse` deletes the pending entry and clears its timer before `new Error(response.error)`. When the error has no string conversion, that constructor throws, the message handler only logs, and the promise is neither resolved nor rejected | a response `{"id": "1", "error": {"toString": 1}}` to a pending call; its caller waits forever, because the timer that would have rejected it is cleared | the call is rejected whatever the error holds | not executed | Bridge.MalformedErrorAbandonsCall | Bridge.MalformedErrorRejectsCall |
