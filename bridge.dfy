/** The server side of the bridge: the correlation table that turns one WebSocket
    peer into an awaitable `send(method, params)`. Socket events and timer expiries
    arrive as method calls; each promise settlement is recorded in `settled`. */
module Bridge {
  import opened Json

  const DefaultPort := 15168
  const DefaultTimeoutMs := 30000

  const NotConnectedMessage :=
    "EDA Pro Extension is not connected. Please open EDA Pro and click \"Connect Claude\" first."
  const DisconnectedMessage := "EDA Pro Extension disconnected"
  const ShuttingDownMessage := "Bridge shutting down"

  /** The rejection message of a request whose timer fired. */
  function TimeoutMessage(timeoutMs: nat, methodName: string): (m: string)
    ensures |m| > 24 + |methodName|
    ensures m[..24] == "Request timed out after "
    ensures m[24..|m| - |methodName|] == NatToString(timeoutMs) + "ms: "
    ensures m[|m| - |methodName|..] == methodName
  {
    var bound := NatToString(timeoutMs) + "ms: ";
    var prefix := "Request timed out after " + bound;
    NatToStringNonEmpty(timeoutMs);
    assert (prefix + methodName)[..24] == prefix[..24];
    assert (prefix + methodName)[24..|prefix|] == prefix[24..] == bound;
    prefix + methodName
  }

  /** The `params = {}` default of `send`: an omitted argument arrives as undefined. */
  function DefaultParams(params: Value): (p: Value)
    ensures !p.Undefined?
    ensures params.Undefined? ==> p == EmptyObject
    ensures !params.Undefined? ==> p == params
  {
    if params.Undefined? then EmptyObject else params
  }

  datatype Request = Request(id: string, methodName: string, params: Value)

  /** What the bridge remembers of a pending call besides its promise callbacks: the
      method, which the timeout message names. */
  datatype PendingRequest = PendingRequest(methodName: string)

  /** What became of a call when its entry left the table: its promise resolved, was
      rejected, or was abandoned, never to settle. */
  datatype Settlement =
    | Resolved(id: string, value: Value)
    | Rejected(id: string, reason: string)
    | Abandoned(id: string)

  datatype SendOutcome = NotConnected(message: string) | Issued(id: string)

  /** The ready states of the `ws` library's WebSocket. */
  datatype ReadyState = Connecting | Open | Closing | Closed

  /** One peer connection as the server sees it: its ready state and the requests
      written to it. */
  class Socket {
    var readyState: ReadyState
    var sent: seq<Request>

    /** A socket as the server's 'connection' event hands it over: open. */
    constructor ()
      ensures readyState == Open && sent == []
    {
      readyState := Open;
      sent := [];
    }

    /** `ws.close()`: starts the closing handshake unless the socket is already closed. */
    method Close()
      modifies this
      ensures readyState == (if old(readyState) == Closed then Closed else Closing)
      ensures sent == old(sent)
    {
      if readyState != Closed {
        readyState := Closing;
      }
    }

    /** The transport has gone away; the socket's 'close' event follows. */
    method Lost()
      modifies this
      ensures readyState == Closed && sent == old(sent)
    {
      readyState := Closed;
    }

    /** `ws.send(JSON.stringify(request))` on an open socket. */
    method Transmit(request: Request)
      requires readyState == Open
      modifies this
      ensures sent == old(sent) + [request] && readyState == old(readyState)
    {
      sent := sent + [request];
    }
  }

  predicate Distinct(s: seq<string>) {
    forall i, j :: 0 <= i < j < |s| ==> s[i] != s[j]
  }

  /** `s` with every occurrence of `x` removed: what deleting a key does to the
      iteration order of a JavaScript Map. */
  function Without(s: seq<string>, x: string): (r: seq<string>)
    ensures forall y :: y in r <==> y in s && y != x
    ensures Distinct(s) ==> Distinct(r)
  {
    if s == [] then []
    else if s[0] == x then Without(s[1..], x)
    else HeadNotInTail(s); [s[0]] + Without(s[1..], x)
  }

  lemma HeadNotInTail(s: seq<string>)
    requires s != []
    ensures Distinct(s) ==> s[0] !in s[1..]
  {
    if Distinct(s) {
      forall j | 0 <= j < |s[1..]| ensures s[1..][j] != s[0] {
        assert s[1..][j] == s[j + 1];
      }
    }
  }

  lemma {:induction false} WithoutAbsent(s: seq<string>, x: string)
    requires x !in s
    ensures Without(s, x) == s
  {
    if s != [] {
      WithoutAbsent(s[1..], x);
    }
  }

  /** Deleting the first key of a Map drops the head of its iteration order. */
  lemma WithoutHead(s: seq<string>)
    requires Distinct(s) && s != []
    ensures Without(s, s[0]) == s[1..]
  {
    HeadNotInTail(s);
    WithoutAbsent(s[1..], s[0]);
  }

  /** The settlements a bulk rejection produces, one per id in iteration order. */
  function Rejections(ids: seq<string>, reason: string): seq<Settlement> {
    if ids == [] then [] else [Rejected(ids[0], reason)] + Rejections(ids[1..], reason)
  }

  /** A bulk rejection settles each id of the iteration order once, in that order, with
      the same reason. */
  lemma {:induction false} RejectionsAt(ids: seq<string>, reason: string)
    ensures |Rejections(ids, reason)| == |ids|
    ensures forall i :: 0 <= i < |ids| ==> Rejections(ids, reason)[i] == Rejected(ids[i], reason)
  {
    if ids != [] {
      RejectionsAt(ids[1..], reason);
    }
  }

  /** What a response does to a pending call once its timer is cleared and its entry
      deleted: a truthy `error` rejects with `new Error(error)`, anything else resolves with
      `result`. When the error has no string value, `new Error(error)` throws before the
      rejection, and the call is abandoned. */
  function Settle(id: string, response: Value): (s: Settlement)
    ensures s.id == id
    ensures s.Resolved? <==> !Truthy(Get(response, "error"))
    ensures s.Abandoned? <==> Truthy(Get(response, "error")) && !Stringable(Get(response, "error"))
    ensures s.Rejected? ==> Stringable(Get(response, "error")) && s.reason == JsString(Get(response, "error"))
    ensures s.Resolved? ==> s.value == Get(response, "result")
  {
    var error := Get(response, "error");
    if !Truthy(error) then Resolved(id, Get(response, "result"))
    else match ToJsString(error)
      case Ok(reason) => Rejected(id, reason)
      case Err(_) => Abandoned(id)
  }

  /** The settlement a response evidently should give: the same as `Settle`, except that an
      error without a string value rejects the call with the TypeError its conversion
      throws, so that every answered call settles. */
  function SettleIntended(id: string, response: Value): (s: Settlement)
    ensures s.id == id && !s.Abandoned?
    ensures !Settle(id, response).Abandoned? ==> s == Settle(id, response)
    ensures Settle(id, response).Abandoned? ==> s == Rejected(id, TypeError)
  {
    var settlement := Settle(id, response);
    if settlement.Abandoned? then Rejected(id, TypeError) else settlement
  }

  /** An empty-string error is falsy, so such a response resolves. */
  lemma EmptyErrorResolves(id: string, result: Value)
    ensures Settle(id, Obj(map["id" := Str(id), "error" := Str(""), "result" := result]))
         == Resolved(id, result)
  {
  }

  /** The table key a parsed frame is looked up by: `response.id` when it is a string.
      A null or undefined frame makes `response.id` throw, which the message handler
      catches; any other id cannot equal a string key of the Map. */
  function ResponseKey(data: Option<Value>): (key: Option<string>)
    ensures key.Some? ==> data.Some? && Get(data.value, "id") == Str(key.value)
    ensures data.Some? && Get(data.value, "id").Str? ==> key.Some?
  {
    if data.Some? && !Nullish(data.value) && Get(data.value, "id").Str?
    then Some(Get(data.value, "id").s)
    else None
  }

  ghost function SettledIds(s: seq<Settlement>): set<string> {
    set i | 0 <= i < |s| :: s[i].id
  }

  ghost predicate SettledOnce(s: seq<Settlement>) {
    forall i, j :: 0 <= i < j < |s| ==> s[i].id != s[j].id
  }

  /** The ids `String(++counter)` has produced so far. */
  ghost function IssuedIds(counter: nat): set<string> {
    set k | 1 <= k <= counter :: NatToString(k)
  }

  lemma SettledIdsAppend(s: seq<Settlement>, x: Settlement)
    ensures SettledIds(s + [x]) == SettledIds(s) + {x.id}
  {
    var t := s + [x];
    forall y | y in SettledIds(t) ensures y in SettledIds(s) + {x.id} {
      var i :| 0 <= i < |t| && t[i].id == y;
      if i < |s| {
        assert s[i].id == y;
      }
    }
    forall y | y in SettledIds(s) + {x.id} ensures y in SettledIds(t) {
      if y == x.id {
        assert t[|s|].id == y;
      } else {
        var i :| 0 <= i < |s| && s[i].id == y;
        assert t[i].id == y;
      }
    }
  }

  /** Moving one pending id to the settled log keeps every issued id accounted for once. */
  lemma SettleKeepsIssued(pending: set<string>, settled: seq<Settlement>, s: Settlement, issued: set<string>)
    requires s.id in pending && pending !! SettledIds(settled) && SettledOnce(settled)
    requires pending + SettledIds(settled) == issued
    ensures (pending - {s.id}) !! SettledIds(settled + [s])
    ensures (pending - {s.id}) + SettledIds(settled + [s]) == issued
    ensures SettledOnce(settled + [s])
  {
    SettledIdsAppend(settled, s);
    var t := settled + [s];
    forall i, j | 0 <= i < j < |t| ensures t[i].id != t[j].id {
      if j == |settled| {
        assert t[i].id in SettledIds(settled) by {
          assert t[i] == settled[i];
        }
      } else {
        assert t[i] == settled[i] && t[j] == settled[j];
      }
    }
  }

  /** Issuing the next id adds one pending id that is neither pending nor settled yet. */
  lemma IssueKeepsIssued(pending: set<string>, settledIds: set<string>, counter: nat)
    requires pending !! settledIds && pending + settledIds == IssuedIds(counter)
    ensures NatToString(counter + 1) !in pending && NatToString(counter + 1) !in settledIds
    ensures (pending + {NatToString(counter + 1)}) + settledIds == IssuedIds(counter + 1)
  {
    FreshId(counter);
    IssuedIdsStep(counter);
  }

  lemma DistinctAppend(s: seq<string>, x: string)
    requires Distinct(s) && x !in s
    ensures Distinct(s + [x])
  {
    var t := s + [x];
    forall i, j | 0 <= i < j < |t| ensures t[i] != t[j] {
      assert t[i] == s[i];
      if j < |s| {
        assert t[j] == s[j];
      }
    }
  }

  lemma IssuedIdsStep(counter: nat)
    ensures IssuedIds(counter + 1) == IssuedIds(counter) + {NatToString(counter + 1)}
  {
  }

  /** The next id has never been issued. */
  lemma FreshId(counter: nat)
    ensures NatToString(counter + 1) !in IssuedIds(counter)
  {
    forall k | 1 <= k <= counter ensures NatToString(k) != NatToString(counter + 1) {
      if NatToString(k) == NatToString(counter + 1) {
        NatToStringInjective(k, counter + 1);
        assert false;
      }
    }
  }

  class WebSocketBridge {
    const port: nat
    const timeoutMs: nat
    var client: Socket?
    var pendingRequests: map<string, PendingRequest>
    /** The iteration order of `pendingRequests` (a JavaScript Map iterates in insertion order). */
    var order: seq<string>
    /** The ids whose timeout timer is armed. */
    var timers: set<string>
    var requestIdCounter: nat
    /** What became of each call that left the table, oldest first. */
    var settled: seq<Settlement>

    /** Every issued id is either pending or has left the table, never both and only once;
        every pending id has exactly one armed timer and one place in the iteration order. */
    ghost predicate Valid()
      reads this
    {
      && timers == pendingRequests.Keys
      && (forall id :: id in order <==> id in pendingRequests)
      && Distinct(order)
      && pendingRequests.Keys !! SettledIds(settled)
      && pendingRequests.Keys + SettledIds(settled) == IssuedIds(requestIdCounter)
      && SettledOnce(settled)
    }

    constructor (port: nat, timeoutMs: nat)
      ensures Valid()
      ensures this.port == port && this.timeoutMs == timeoutMs
      ensures client == null && pendingRequests == map[] && order == [] && timers == {}
      ensures requestIdCounter == 0 && settled == []
    {
      this.port := port;
      this.timeoutMs := timeoutMs;
      client := null;
      pendingRequests := map[];
      order := [];
      timers := {};
      requestIdCounter := 0;
      settled := [];
    }

    /** `isConnected()` */
    predicate IsConnected()
      reads this, client
    {
      client != null && client.readyState == Open
    }

    /** The server's 'connection' event: the newest socket becomes the client; pending
        calls made on an older socket stay pending. */
    method OnConnection(ws: Socket)
      requires Valid()
      modifies this
      ensures Valid()
      ensures client == ws
      ensures pendingRequests == old(pendingRequests) && order == old(order) && timers == old(timers)
      ensures requestIdCounter == old(requestIdCounter) && settled == old(settled)
    {
      client := ws;
    }

    /** `send(method, params)`. While not connected it fails without touching the counter or
        the table; otherwise it issues the next id, registers the call under it, arms its
        timer and writes the request to the client socket. */
    method Send(methodName: string, params: Value) returns (r: SendOutcome)
      requires Valid()
      modifies this, client
      ensures Valid()
      ensures client == old(client) && settled == old(settled)
      ensures client != null ==> client.readyState == old(client.readyState)
      ensures !old(IsConnected()) ==>
        && r == NotConnected(NotConnectedMessage)
        && pendingRequests == old(pendingRequests) && order == old(order) && timers == old(timers)
        && requestIdCounter == old(requestIdCounter)
        && (client != null ==> client.sent == old(client.sent))
      ensures old(IsConnected()) ==>
        && requestIdCounter == old(requestIdCounter) + 1
        && r == Issued(NatToString(requestIdCounter))
        && r.id !in old(IssuedIds(requestIdCounter))
        && r.id !in old(pendingRequests)
        && pendingRequests == old(pendingRequests)[r.id := PendingRequest(methodName)]
        && order == old(order) + [r.id]
        && timers == old(timers) + {r.id}
        && client != null
        && client.sent == old(client.sent) + [Request(r.id, methodName, DefaultParams(params))]
    {
      if !IsConnected() {
        return NotConnected(NotConnectedMessage);
      }
      var id := NatToString(requestIdCounter + 1);
      FreshId(requestIdCounter);
      IssueKeepsIssued(pendingRequests.Keys, SettledIds(settled), requestIdCounter);
      DistinctAppend(order, id);
      assert pendingRequests[id := PendingRequest(methodName)].Keys == pendingRequests.Keys + {id};
      requestIdCounter := requestIdCounter + 1;
      timers := timers + {id};
      pendingRequests := pendingRequests[id := PendingRequest(methodName)];
      order := order + [id];
      client.Transmit(Request(id, methodName, DefaultParams(params)));
      r := Issued(id);
    }

    /** Removes a pending id and records its settlement. */
    method SettleOne(id: string, s: Settlement)
      requires Valid() && id in pendingRequests && s.id == id
      modifies this
      ensures Valid()
      ensures pendingRequests == old(pendingRequests) - {id}
      ensures order == Without(old(order), id) && timers == old(timers) - {id}
      ensures settled == old(settled) + [s]
      ensures client == old(client) && requestIdCounter == old(requestIdCounter)
    {
      SettleKeepsIssued(pendingRequests.Keys, settled, s, IssuedIds(requestIdCounter));
      assert (pendingRequests - {id}).Keys == pendingRequests.Keys - {id};
      timers := timers - {id};
      pendingRequests := pendingRequests - {id};
      order := Without(order, id);
      settled := settled + [s];
    }

    /** The 'message' event of a connected socket, with the frame already parsed (None when
        `JSON.parse` throws). A response for an id that is not pending (never issued, timed
        out, rejected on close, or already answered) changes nothing; one for a pending id
        removes it and settles it as `Settle` says, which may abandon it. */
    method OnMessage(data: Option<Value>)
      requires Valid()
      modifies this
      ensures Valid()
      ensures client == old(client) && requestIdCounter == old(requestIdCounter)
      ensures !(ResponseKey(data).Some? && ResponseKey(data).value in old(pendingRequests)) ==>
        && pendingRequests == old(pendingRequests) && order == old(order)
        && timers == old(timers) && settled == old(settled)
      ensures ResponseKey(data).Some? && ResponseKey(data).value in old(pendingRequests) ==>
        var id := ResponseKey(data).value;
        && pendingRequests == old(pendingRequests) - {id}
        && order == Without(old(order), id) && timers == old(timers) - {id}
        && settled == old(settled) + [Settle(id, data.value)]
    {
      var key := ResponseKey(data);
      if key.None? || key.value !in pendingRequests {
        return;
      }
      SettleOne(key.value, Settle(key.value, data.value));
    }

    /** `OnMessage` as evidently intended: a response for a pending id settles it as
        `SettleIntended` says, and never abandons it. */
    method OnMessageIntended(data: Option<Value>)
      requires Valid()
      modifies this
      ensures Valid()
      ensures client == old(client) && requestIdCounter == old(requestIdCounter)
      ensures !(ResponseKey(data).Some? && ResponseKey(data).value in old(pendingRequests)) ==>
        && pendingRequests == old(pendingRequests) && order == old(order)
        && timers == old(timers) && settled == old(settled)
      ensures ResponseKey(data).Some? && ResponseKey(data).value in old(pendingRequests) ==>
        var id := ResponseKey(data).value;
        && pendingRequests == old(pendingRequests) - {id}
        && order == Without(old(order), id) && timers == old(timers) - {id}
        && settled == old(settled) + [SettleIntended(id, data.value)]
      ensures forall i :: |old(settled)| <= i < |settled| ==> !settled[i].Abandoned?
    {
      var key := ResponseKey(data);
      if key.None? || key.value !in pendingRequests {
        return;
      }
      SettleOne(key.value, SettleIntended(key.value, data.value));
    }

    /** The timer of a pending call fires: that call alone is removed and rejected with a
        message naming its method. */
    method OnTimeout(id: string)
      requires Valid() && id in timers
      modifies this
      ensures Valid()
      ensures pendingRequests == old(pendingRequests) - {id}
      ensures order == Without(old(order), id) && timers == old(timers) - {id}
      ensures settled == old(settled) + [Rejected(id, TimeoutMessage(timeoutMs, old(pendingRequests)[id].methodName))]
      ensures client == old(client) && requestIdCounter == old(requestIdCounter)
    {
      SettleOne(id, Rejected(id, TimeoutMessage(timeoutMs, pendingRequests[id].methodName)));
    }

    /** One turn of the bulk-rejection loop: the first pending call in iteration order is
        removed and rejected. */
    method RejectFirst(reason: string)
      requires Valid() && order != []
      modifies this
      ensures Valid()
      ensures order == old(order[1..]) && pendingRequests == old(pendingRequests) - {old(order[0])}
      ensures settled == old(settled) + [Rejected(old(order[0]), reason)]
      ensures client == old(client) && requestIdCounter == old(requestIdCounter)
    {
      WithoutHead(order);
      SettleOne(order[0], Rejected(order[0], reason));
    }

    /** Clears every timer and rejects every pending call with `reason`, in iteration order. */
    method RejectAll(reason: string)
      requires Valid()
      modifies this
      ensures Valid()
      ensures pendingRequests == map[] && order == [] && timers == {}
      ensures settled == old(settled) + Rejections(old(order), reason)
      ensures client == old(client) && requestIdCounter == old(requestIdCounter)
    {
      while order != []
        invariant Valid()
        invariant client == old(client) && requestIdCounter == old(requestIdCounter)
        invariant settled + Rejections(order, reason) == old(settled) + Rejections(old(order), reason)
        decreases |order|
      {
        ghost var before, orderBefore := settled, order;
        RejectFirst(reason);
        assert Rejections(orderBefore, reason)
            == [Rejected(orderBefore[0], reason)] + Rejections(order, reason);
        assert settled + Rejections(order, reason)
            == before + ([Rejected(orderBefore[0], reason)] + Rejections(order, reason));
      }
      assert pendingRequests.Keys == {};
    }

    /** The 'close' event of socket `ws`. The client is cleared only when `ws` is the current
        one, but every pending call is rejected, including calls sent on a newer socket. */
    method OnClose(ws: Socket)
      requires Valid()
      modifies this
      ensures Valid()
      ensures client == (if old(client) == ws then null else old(client))
      ensures pendingRequests == map[] && order == [] && timers == {}
      ensures settled == old(settled) + Rejections(old(order), DisconnectedMessage)
      ensures requestIdCounter == old(requestIdCounter)
    {
      if client == ws {
        client := null;
      }
      RejectAll(DisconnectedMessage);
    }

    /** `stop()`: rejects every pending call, then closes and forgets the client. */
    method Stop()
      requires Valid()
      modifies this, client
      ensures Valid()
      ensures client == null
      ensures pendingRequests == map[] && order == [] && timers == {}
      ensures settled == old(settled) + Rejections(old(order), ShuttingDownMessage)
      ensures requestIdCounter == old(requestIdCounter)
      ensures old(client) != null ==>
        && old(client).readyState == (if old(client.readyState) == Closed then Closed else Closing)
        && old(client).sent == old(client.sent)
    {
      RejectAll(ShuttingDownMessage);
      if client != null {
        client.Close();
        client := null;
      }
    }
  }

  /** A call whose timer fired is settled once; the peer's late answer is then ignored. */
  method LateResponseAfterTimeout(methodName: string, result: Value) returns (outcomes: seq<Settlement>)
    ensures outcomes == [Rejected("1", TimeoutMessage(DefaultTimeoutMs, methodName))]
  {
    var bridge := new WebSocketBridge(DefaultPort, DefaultTimeoutMs);
    var ws := new Socket();
    bridge.OnConnection(ws);
    var r := bridge.Send(methodName, Undefined);
    assert NatToString(1) == "1";
    bridge.OnTimeout("1");
    bridge.OnMessage(Some(Obj(map["id" := Str("1"), "result" := result])));
    outcomes := bridge.settled;
  }

  /** The error a peer answers with when its object has an own `toString` key. */
  const ErrorWithoutString := Obj(map["toString" := Num(1)])

  /** A socket connects and one call is sent on it. */
  method OneCallPending(methodName: string) returns (bridge: WebSocketBridge, ws: Socket)
    ensures fresh(bridge) && fresh(ws) && bridge.client == ws && ws.readyState == Open
    ensures bridge.Valid() && bridge.settled == [] && bridge.requestIdCounter == 1
    ensures bridge.order == ["1"] && bridge.pendingRequests.Keys == {"1"}
  {
    bridge := new WebSocketBridge(DefaultPort, DefaultTimeoutMs);
    ws := new Socket();
    bridge.OnConnection(ws);
    var r := bridge.Send(methodName, Undefined);
    assert NatToString(1) == "1";
  }

  /** As written, an error object without a string value abandons its call: the entry and
      its timer are gone before `new Error(...)` throws, so neither a response, the timer,
      a close nor `stop()` ever settles it. */
  method MalformedErrorAbandonsCall(methodName: string) returns (outcomes: seq<Settlement>)
    ensures outcomes == [Abandoned("1")]
  {
    var bridge, _ := OneCallPending(methodName);
    var reply := Obj(map["id" := Str("1"), "error" := ErrorWithoutString]);
    assert ResponseKey(Some(reply)) == Some("1") && Settle("1", reply) == Abandoned("1");
    bridge.OnMessage(Some(reply));
    assert bridge.order == [];
    bridge.Stop();
    outcomes := bridge.settled;
  }

  /** With the intended settlement the same answer rejects the call. */
  method MalformedErrorRejectsCall(methodName: string) returns (outcomes: seq<Settlement>)
    ensures outcomes == [Rejected("1", TypeError)]
  {
    var bridge, _ := OneCallPending(methodName);
    var reply := Obj(map["id" := Str("1"), "error" := ErrorWithoutString]);
    assert ResponseKey(Some(reply)) == Some("1") && SettleIntended("1", reply) == Rejected("1", TypeError);
    bridge.OnMessageIntended(Some(reply));
    assert bridge.order == [];
    bridge.Stop();
    outcomes := bridge.settled;
  }

  /** Two sockets connect in turn and one call is sent on each. */
  method CallOnEachSocket(methodName: string) returns (bridge: WebSocketBridge, first: Socket, second: Socket)
    ensures fresh(bridge) && fresh(first) && fresh(second) && first != second
    ensures bridge.Valid() && bridge.client == second && second.readyState == Open
    ensures bridge.order == ["1", "2"] && bridge.settled == []
  {
    bridge, first := OneCallPending(methodName);
    second := new Socket();
    bridge.OnConnection(second);
    var r2 := bridge.Send(methodName, EmptyObject);
    assert NatToString(2) == "2";
  }

  /** The close of a replaced socket still rejects the calls sent on its successor, and
      the successor stays the connected client. */
  method CloseOfReplacedSocket(methodName: string) returns (outcomes: seq<Settlement>, connected: bool)
    ensures connected
    ensures outcomes == [Rejected("1", DisconnectedMessage), Rejected("2", DisconnectedMessage)]
  {
    var bridge, first, second := CallOnEachSocket(methodName);
    first.Lost();
    bridge.OnClose(first);
    assert Rejections(["1", "2"], DisconnectedMessage)
        == [Rejected("1", DisconnectedMessage)] + Rejections(["2"], DisconnectedMessage);
    outcomes := bridge.settled;
    connected := bridge.IsConnected();
  }
}
