/** The extension side of the bridge: the merged handler table and the message callback
    that answers each request. A handler is an opaque function from its params to the
    value its promise fulfils with, or the message of what it throws. */
module WsClient {
  import opened Json
  import opened HandlerNames

  datatype HandlerOutcome = Fulfilled(value: Value) | Thrown(message: string)

  type Handler = Value -> HandlerOutcome

  type HandlerTable = map<string, Handler>

  /** `table` holds no key of a later table in `tables`. */
  ghost predicate LastHolder(tables: seq<HandlerTable>, i: int, k: string)
    requires 0 <= i < |tables|
  {
    forall j :: i < j < |tables| ==> k !in tables[j]
  }

  /** `{ ...tables[0], ...tables[1], ... }`, spread left to right. */
  function Compose(tables: seq<HandlerTable>): (merged: HandlerTable)
    ensures tables != [] ==> forall k :: k in tables[|tables| - 1] ==> k in merged && merged[k] == tables[|tables| - 1][k]
    decreases |tables|
  {
    if tables == [] then map[] else Compose(tables[..|tables| - 1]) + tables[|tables| - 1]
  }

  /** A key is in the merge iff some table has it, and it maps to the handler of the last
      table that has it. */
  lemma {:induction false} ComposeSpec(tables: seq<HandlerTable>)
    ensures forall k :: k in Compose(tables) <==> exists i :: 0 <= i < |tables| && k in tables[i]
    ensures forall i, k :: 0 <= i < |tables| && k in tables[i] && LastHolder(tables, i, k) ==>
      k in Compose(tables) && Compose(tables)[k] == tables[i][k]
    decreases |tables|
  {
    if tables != [] {
      var n := |tables| - 1;
      var front := tables[..n];
      ComposeSpec(front);
      assert forall i :: 0 <= i < n ==> front[i] == tables[i];
      forall k | k in Compose(tables)
        ensures exists i :: 0 <= i < |tables| && k in tables[i]
      {
        if k !in tables[n] {
          assert k in Compose(front);
          var i :| 0 <= i < n && k in front[i];
          assert k in tables[i];
        }
      }
      forall i, k | 0 <= i < |tables| && k in tables[i] && LastHolder(tables, i, k)
        ensures k in Compose(tables) && Compose(tables)[k] == tables[i][k]
      {
        if i < n {
          assert k !in tables[n];
          assert LastHolder(front, i, k);
        }
      }
    }
  }

  /** Partial table `i`: each of its method names forwards to the host API through the
      table's own implementation `impl(i, name)`. */
  function TableOf(i: nat, names: set<string>, impl: (nat, string) -> Handler): (t: HandlerTable)
    ensures t.Keys == names
    ensures forall n :: n in names ==> t[n] == impl(i, n)
  {
    map n | n in names :: impl(i, n)
  }

  /** The partial tables whose method names are `names[0]`, `names[1]`, ... */
  function Tables(names: seq<set<string>>, impl: (nat, string) -> Handler): (ts: seq<HandlerTable>)
    ensures |ts| == |names|
    ensures forall i :: 0 <= i < |ts| ==> ts[i] == TableOf(i, names[i], impl)
  {
    seq(|names|, i requires 0 <= i < |names| => TableOf(i, names[i], impl))
  }

  /** The spread-merge of the partial tables named by `names`, in that order. */
  function Handlers(names: seq<set<string>>, impl: (nat, string) -> Handler): HandlerTable {
    Compose(Tables(names, impl))
  }

  /** `allHandlers`: it answers exactly the methods of the twelve merged tables. */
  function AllHandlers(impl: (nat, string) -> Handler): (handlers: HandlerTable)
    ensures forall k :: k in handlers <==> exists i :: 0 <= i < |MergedNameTables| && k in MergedNameTables[i]
  {
    HandlersKeys(MergedNameTables, impl);
    Handlers(MergedNameTables, impl)
  }

  /** A method is answered by the merge iff one of the merged tables names it. */
  lemma HandlersKeys(names: seq<set<string>>, impl: (nat, string) -> Handler)
    ensures forall k :: k in Handlers(names, impl) <==> exists i :: 0 <= i < |names| && k in names[i]
  {
    var ts := Tables(names, impl);
    ComposeSpec(ts);
    forall k ensures k in Handlers(names, impl) <==> exists i :: 0 <= i < |names| && k in names[i] {
      if k in Handlers(names, impl) {
        var i :| 0 <= i < |ts| && k in ts[i];
        assert k in names[i];
      }
      if exists i :: 0 <= i < |names| && k in names[i] {
        var i :| 0 <= i < |names| && k in names[i];
        assert k in ts[i];
      }
    }
  }

  /** A method is answered by the implementation of the last merged table naming it. */
  lemma HandlersLastWins(names: seq<set<string>>, impl: (nat, string) -> Handler, i: nat, k: string)
    requires i < |names| && k in names[i]
    requires forall j :: i < j < |names| ==> k !in names[j]
    ensures k in Handlers(names, impl) && Handlers(names, impl)[k] == impl(i, k)
  {
    var ts := Tables(names, impl);
    ComposeSpec(ts);
    assert k in ts[i] && LastHolder(ts, i, k);
  }

  /** Methods that only the pour/fill, PCB-primitive and editor tables define get the
      unknown-method answer. */
  lemma UnmergedMethodsAreUnknown(impl: (nat, string) -> Handler)
    ensures forall m :: m in UnmergedNames ==> m !in AllHandlers(impl)
  {
    HandlersKeys(MergedNameTables, impl);
    UnmergedNamesAreNotMerged();
  }

  /** `sendResponse(id, result, error)` as the record it builds: `error` iff the error is
      truthy, `result` otherwise, never both. */
  function SendResponse(id: Value, result: Value, error: Value): (r: map<string, Value>)
    ensures r.Keys == if Truthy(error) then {"id", "error"} else {"id", "result"}
    ensures r["id"] == id
    ensures Truthy(error) ==> r["error"] == error
    ensures !Truthy(error) ==> r["result"] == result
  {
    var response := map["id" := id];
    if Truthy(error) then response["error" := error] else response["result" := result]
  }

  /** `request.id`, read only once parsing succeeded and the request is not null. */
  function RequestId(request: Value): (id: Value)
    ensures request.Obj? && "id" in request.fields ==> id == request.fields["id"]
    ensures !(request.Obj? && "id" in request.fields) ==> id == Undefined
  {
    Get(request, "id")
  }

  /** The property key `allHandlers[request.method]` is looked up by; the conversion throws
      for a method without a string value. */
  function MethodKey(request: Value): (key: Result<string>)
    ensures key.Ok? <==> Stringable(Get(request, "method"))
    ensures Get(request, "method").Str? ==> key == Ok(Get(request, "method").s)
    ensures key.Err? ==> key.error == TypeError
  {
    ToJsString(Get(request, "method"))
  }

  /** `request.params || {}`: the params when truthy, the empty object otherwise. */
  function HandlerParams(request: Value): (params: Value)
    ensures Truthy(params)
    ensures Truthy(Get(request, "params")) ==> params == Get(request, "params")
    ensures !Truthy(Get(request, "params")) ==> params == EmptyObject
  {
    Or(Get(request, "params"), EmptyObject)
  }

  function UnknownMethodMessage(key: string): string {
    "Unknown method: " + key
  }

  /** The message callback of `connectToMcpServer`. `data` is the parsed frame (None when
      `JSON.parse` throws). The result is the one response sent, if any, and the params of
      each handler invocation. */
  method OnMessage(handlers: HandlerTable, data: Option<Value>)
    returns (response: Option<map<string, Value>>, calls: seq<Value>)
    ensures |calls| <= 1
    ensures data.None? || Nullish(data.value) ==> response.None? && calls == []
    ensures data.Some? && !Nullish(data.value) && MethodKey(data.value).Err? ==>
      && calls == []
      && response == if Truthy(RequestId(data.value))
                     then Some(SendResponse(RequestId(data.value), Undefined, Str(TypeError)))
                     else None
    ensures data.Some? && !Nullish(data.value) && MethodKey(data.value).Ok?
            && MethodKey(data.value).value !in handlers ==>
      && calls == []
      && response == Some(map["id" := RequestId(data.value),
                              "error" := Str(UnknownMethodMessage(MethodKey(data.value).value))])
    ensures data.Some? && !Nullish(data.value) && MethodKey(data.value).Ok?
            && MethodKey(data.value).value in handlers ==>
      var request := data.value;
      && calls == [HandlerParams(request)]
      && match handlers[MethodKey(request).value](HandlerParams(request))
         case Fulfilled(v) => response == Some(SendResponse(RequestId(request), v, Undefined))
         case Thrown(m) =>
           response == if Truthy(RequestId(request))
                       then Some(SendResponse(RequestId(request), Undefined, Str(m)))
                       else None
  {
    var id: Value := Undefined;
    response, calls := None, [];
    if data.None? {
      return;
    }
    var request := data.value;
    if Nullish(request) {
      return;
    }
    id := RequestId(request);
    var params := HandlerParams(request);
    var key := MethodKey(request);
    if key.Err? {
      if Truthy(id) {
        response := Some(SendResponse(id, Undefined, Str(key.error)));
      }
      return;
    }
    var methodKey := key.value;
    if methodKey !in handlers {
      response := Some(SendResponse(id, Undefined, Str(UnknownMethodMessage(methodKey))));
      return;
    }
    var outcome := handlers[methodKey](params);
    calls := [params];
    match outcome {
      case Fulfilled(v) =>
        response := Some(SendResponse(id, v, Undefined));
      case Thrown(m) =>
        if Truthy(id) {
          response := Some(SendResponse(id, Undefined, Str(m)));
        }
    }
  }

  /** A handler that throws an empty message gets a result response, because the empty
      error is falsy in `sendResponse`. */
  lemma EmptyThrowAnswersWithResult(id: Value)
    requires Truthy(id)
    ensures SendResponse(id, Undefined, Str("")) == map["id" := id, "result" := Undefined]
  {
  }
}
