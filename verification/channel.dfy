/**
 * The page and the worker together: a request goes out through the client's
 * `_call`, the worker's listener answers it, and the client's `onmessage`
 * settles the caller that is waiting on that id.
 */
module Channel {
  import opened JsValues
  import opened Protocol
  import opened ContractWorker
  import opened WorkerClient

  /**
   * One call end to end. When the handler returns, the worker posts one reply
   * with the call's id and the client resolves exactly the caller's
   * continuation with the handler's result, removing its entry. When the
   * handler throws, no reply comes back and the call stays pending.
   */
  method RoundTrip(client: ContractWorkerClient, worker: Worker, c: ClientCall, k: Continuation, lib: Library)
    returns (id: nat, o: Outcome)
    requires client.Valid()
    modifies client, worker
    ensures client.Valid()
    ensures id == old(client.nextId) && client.nextId == id + 1
    ensures client.outbox == old(client.outbox) + [Request(id, OpOf(c), ArgsOf(c))]
    ensures worker.replies == old(worker.replies) + (if o.Returned? then [Response(id, o.value)] else [])
    ensures worker.HandlerFrame(OpOf(c), o) && worker.HandlerOutcome(OpOf(c), ArgsOf(c), lib, o)
    ensures o.Returned? ==> client.pending == old(client.pending)
                            && client.settled == old(client.settled) + [Settlement(id, k, o.value)]
    ensures o.Threw? ==> client.pending == old(client.pending)[id := k] && client.settled == old(client.settled)
  {
    id := client.Invoke(c, k);
    o := worker.OnMessage(client.outbox[id], lib);
    if o.Returned? {
      var reply := worker.replies[|worker.replies| - 1];
      var resolved := client.OnMessage(reply);
      assert resolved;
    }
  }

  /**
   * Three calls in flight, answered in reverse order: each reply settles the
   * caller whose request bore its id, whatever the arrival order.
   */
  method RepliesInReverseOrder(d0: Value, d1: Value, d2: Value) returns (log: seq<Settlement>)
    ensures log == [Settlement(2, Continuation(2), d2), Settlement(1, Continuation(1), d1),
                    Settlement(0, Continuation(0), d0)]
  {
    var client := new ContractWorkerClient();
    var a := client.Invoke(ClientCall.FetchAccount("A"), Continuation(0));
    assert a == 0 && client.pending == map[0 := Continuation(0)];
    var b := client.Invoke(ClientCall.FetchAccount("B"), Continuation(1));
    assert b == 1 && client.pending == map[0 := Continuation(0), 1 := Continuation(1)];
    var c := client.Invoke(ClientCall.GetDecimals, Continuation(2));
    assert c == 2;
    assert client.pending == map[0 := Continuation(0), 1 := Continuation(1), 2 := Continuation(2)];
    var r2 := client.OnMessage(Response(c, d2));
    assert client.settled == [Settlement(2, Continuation(2), d2)];
    var r1 := client.OnMessage(Response(b, d1));
    assert client.settled == [Settlement(2, Continuation(2), d2), Settlement(1, Continuation(1), d1)];
    var r0 := client.OnMessage(Response(a, d0));
    log := client.settled;
  }

  /**
   * A second reply with an id already resolved, and a reply with an id never
   * issued, settle nothing and leave the other pending call waiting.
   */
  method DuplicateAndUnknownReplies(d: Value, d': Value) returns (again: bool, unknown: bool, log: seq<Settlement>, waiting: set<nat>)
    ensures !again && !unknown
    ensures log == [Settlement(0, Continuation(7), d)]
    ensures waiting == {1}
  {
    var client := new ContractWorkerClient();
    var first := client.Invoke(ClientCall.GetBalance("B62q"), Continuation(7));
    var second := client.Invoke(ClientCall.GetCirculating, Continuation(8));
    var ok := client.OnMessage(Response(first, d));
    again := client.OnMessage(Response(first, d'));
    unknown := client.OnMessage(Response(5, d'));
    log := client.settled;
    waiting := client.pending.Keys;
  }
}
