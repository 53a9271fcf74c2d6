/** The argument reshaping shared by the server-side tools: validated tool arguments, the
    object-rest destructuring the callbacks use, and the call each tool makes on the bridge. */
module ToolArgs {
  import opened Json

  /** The validated arguments of a tool call: one entry per argument that was given. */
  type Args = map<string, Value>

  /** `bridge.send(methodName, params)`; `params` is `Undefined` when the tool passes none. */
  datatype BridgeCall = BridgeCall(methodName: string, params: Value)

  /** The destructured binding `const { key } = args`. */
  function Arg(args: Args, key: string): Value {
    if key in args then args[key] else Undefined
  }

  /** The rest binding `const { k1, k2, ...rest } = args`. */
  function Rest(args: Args, keys: set<string>): (rest: Args)
    ensures rest.Keys == args.Keys - keys
    ensures forall k :: k in rest ==> rest[k] == args[k]
  {
    args - keys
  }

  /** `{ primitiveId, property }` built from `({ primitiveId, ...property }) =>`. */
  function SplitPrimitiveId(args: Args): (params: Value)
    ensures params.Obj? && params.fields.Keys == {"primitiveId", "property"}
    ensures params.fields["primitiveId"] == Arg(args, "primitiveId")
    ensures params.fields["property"].Obj?
    ensures "primitiveId" !in params.fields["property"].fields
    ensures params.fields["property"].fields.Keys == args.Keys - {"primitiveId"}
  {
    Obj(map["primitiveId" := Arg(args, "primitiveId"), "property" := Obj(Rest(args, {"primitiveId"}))])
  }

  /** The inverse of `SplitPrimitiveId`: put the id back among the properties. */
  function JoinPrimitiveId(params: Value): Args
    requires params.Obj? && "primitiveId" in params.fields && "property" in params.fields
    requires params.fields["property"].Obj?
  {
    params.fields["property"].fields["primitiveId" := params.fields["primitiveId"]]
  }

  /** Splitting loses nothing: every argument is either the id or one of the properties. */
  lemma SplitJoin(args: Args)
    requires "primitiveId" in args
    ensures JoinPrimitiveId(SplitPrimitiveId(args)) == args
  {
    var joined := JoinPrimitiveId(SplitPrimitiveId(args));
    assert joined.Keys == args.Keys;
    forall k | k in args ensures joined[k] == args[k] {
    }
  }
}
