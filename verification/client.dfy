/**
 * The page side of the worker channel (ContractWorkerClient): every wrapper
 * method becomes one request through `_call`, which files the caller's
 * continuation under a fresh id in the pending table; the `onmessage` handler
 * resolves the continuation filed under a reply's id and deletes it.
 */
module WorkerClient {
  import opened Wrappers
  import opened JsValues
  import opened Protocol
  import ContractWorker

  /** The resolve/reject pair of one caller's Promise, by the Promise it settles. */
  datatype Continuation = Continuation(promise: nat)

  /** One call of a resolve continuation: the id it was filed under and the payload it received. */
  datatype Settlement = Settlement(id: nat, cont: Continuation, data: Value)

  /**
   * The client's wrapper methods with their arguments. An `Option` argument is
   * one the caller may leave out; `FetchAccount` and `FetchTokenAccount` carry
   * the key already in its base58 text form.
   */
  datatype ClientCall =
    | SetActiveInstance(network: Option<string>)
    | LoadContract
    | CompileContract
    | FetchAccount(publicKey58: string)
    | FetchTokenAccount(publicKey58: string)
    | InitZkappInstance(publicKey: string)
    | GetBalance(address: string)
    | GetDecimals
    | GetCirculating
    | CreateTransferTransaction(from: string, to: string, amount: string)
    | ProveTransaction
    | GetTransactionJson
    | GetAdminContract
    | DeriveTokenId
    | MintToken(sender: string, recipientAddress: string, amount: string, adminPrivateKey58: string, feePayerPrivateKey58: string)
    | DeployToken(feePayerKey58: string, tokenSymbol: string, tokenDecimals: int, src: Option<string>, network: Option<string>)

  /**
   * The operation a wrapper names. `fetchAccount` is the one wrapper that
   * sends a key other than its own name.
   */
  function OpOf(c: ClientCall): (op: Op)
    ensures op == Op.FetchAccountFunc <==> c.FetchAccount?
  {
    match c
    case SetActiveInstance(_) => Op.SetActiveInstance
    case LoadContract => Op.LoadContract
    case CompileContract => Op.CompileContract
    case FetchAccount(_) => Op.FetchAccountFunc
    case FetchTokenAccount(_) => Op.FetchTokenAccount
    case InitZkappInstance(_) => Op.InitZkappInstance
    case GetBalance(_) => Op.GetBalance
    case GetDecimals => Op.GetDecimals
    case GetCirculating => Op.GetCirculating
    case CreateTransferTransaction(_, _, _) => Op.CreateTransferTransaction
    case ProveTransaction => Op.ProveTransaction
    case GetTransactionJson => Op.GetTransactionJson
    case GetAdminContract => Op.GetAdminContract
    case DeriveTokenId => Op.DeriveTokenId
    case MintToken(_, _, _, _, _) => Op.MintToken
    case DeployToken(_, _, _, _, _) => Op.DeployToken
  }

  /** An optional argument as it arrives: left out, it is `undefined`. */
  function OptStr(o: Option<string>): Value {
    match o
    case Some(s) => Str(s)
    case None => Undefined
  }

  /** The argument record a wrapper sends; a left-out `network` takes the default "Devnet". */
  function ArgsOf(c: ClientCall): (r: Value)
    ensures r.Obj?
    ensures c.SetActiveInstance? || c.DeployToken? ==> Field(r, "network") == Str(c.network.GetOr("Devnet"))
    ensures c.FetchAccount? || c.FetchTokenAccount? ==> Field(r, "publicKey58") == Str(c.publicKey58)
    ensures c.InitZkappInstance? ==> Field(r, "publicKey58") == Str(c.publicKey)
    ensures c.DeployToken? ==> Field(r, "tokenSymbol") == Str(c.tokenSymbol) && Field(r, "src") == OptStr(c.src)
  {
    match c
    case SetActiveInstance(network) => Obj(map["network" := Str(network.GetOr("Devnet"))])
    case FetchAccount(key) => Obj(map["publicKey58" := Str(key)])
    case FetchTokenAccount(key) => Obj(map["publicKey58" := Str(key)])
    case InitZkappInstance(key) => Obj(map["publicKey58" := Str(key)])
    case GetBalance(address) => Obj(map["address58" := Str(address)])
    case CreateTransferTransaction(from, to, amount) =>
      Obj(map["from58" := Str(from), "to58" := Str(to), "amount" := Str(amount)])
    case MintToken(sender, recipient, amount, adminKey, feePayerKey) =>
      Obj(map["sender" := Str(sender), "recipientAddress58" := Str(recipient), "amount" := Str(amount),
              "adminPrivateKey58" := Str(adminKey), "feePayerPrivateKey58" := Str(feePayerKey)])
    case DeployToken(feePayerKey, symbol, decimals, src, network) =>
      Obj(map["feePayerKey58" := Str(feePayerKey), "tokenSymbol" := Str(symbol), "tokenDecimals" := Num(decimals),
              "src" := OptStr(src), "network" := Str(network.GetOr("Devnet"))])
    case _ => Obj(map[])
  }

  /** Every operation the worker registers is sent by some wrapper of the client. */
  lemma EveryOperationHasWrapper(op: Op)
    ensures exists c :: OpOf(c) == op
  {
    match op
    case SetActiveInstance => assert OpOf(ClientCall.SetActiveInstance(None)) == op;
    case LoadContract => assert OpOf(ClientCall.LoadContract) == op;
    case CompileContract => assert OpOf(ClientCall.CompileContract) == op;
    case FetchAccountFunc => assert OpOf(ClientCall.FetchAccount("")) == op;
    case FetchTokenAccount => assert OpOf(ClientCall.FetchTokenAccount("")) == op;
    case InitZkappInstance => assert OpOf(ClientCall.InitZkappInstance("")) == op;
    case GetBalance => assert OpOf(ClientCall.GetBalance("")) == op;
    case GetDecimals => assert OpOf(ClientCall.GetDecimals) == op;
    case GetCirculating => assert OpOf(ClientCall.GetCirculating) == op;
    case CreateTransferTransaction => assert OpOf(ClientCall.CreateTransferTransaction("", "", "")) == op;
    case ProveTransaction => assert OpOf(ClientCall.ProveTransaction) == op;
    case GetTransactionJson => assert OpOf(ClientCall.GetTransactionJson) == op;
    case GetAdminContract => assert OpOf(ClientCall.GetAdminContract) == op;
    case DeriveTokenId => assert OpOf(ClientCall.DeriveTokenId) == op;
    case MintToken => assert OpOf(ClientCall.MintToken("", "", "", "", "")) == op;
    case DeployToken => assert OpOf(ClientCall.DeployToken("", "", 0, None, None)) == op;
  }

  /**
   * Every wrapper names a registered operation, and the fixed names and
   * argument shapes: `fetchAccount` sends `fetchAccountfunc` with the key as
   * `publicKey58`, and `setActiveInstance` without a network sends "Devnet".
   */
  lemma WrapperRequests(c: ClientCall, key: string)
    ensures Lookup(Name(OpOf(c))) == Some(OpOf(c))
    ensures Name(OpOf(ClientCall.FetchAccount(key))) == "fetchAccountfunc"
    ensures ArgsOf(ClientCall.FetchAccount(key)) == Obj(map["publicKey58" := Str(key)])
    ensures ArgsOf(ClientCall.SetActiveInstance(None)) == Obj(map["network" := Str("Devnet")])
  {
    RegistryRoundTrip(OpOf(c));
  }

  /**
   * What the worker makes of the client's `setActiveInstance` request: the
   * network it was given, "Devnet" when none was given, and an invalid
   * parameter for an empty name (an object whose `network` is falsy).
   */
  lemma SetActiveInstanceRequest(network: Option<string>)
    ensures var args := ArgsOf(ClientCall.SetActiveInstance(network));
            ContractWorker.ParseNetworkParam(args) ==
              if network == Some("") then Err(ContractWorker.InvalidNetworkParameter)
              else Ok(Str(network.GetOr("Devnet")))
    ensures var args := ArgsOf(ClientCall.SetActiveInstance(network));
            ContractWorker.ActiveInstanceUrl(args).Ok? <==> network.GetOr("Devnet") in ContractWorker.NetworkUrls
  {
  }

  /**
   * What the worker makes of the client's `deployToken` request: the nonce is
   * queried on Mainnet's endpoint exactly when "Mainnet" is given; a left-out or
   * empty source takes the default one.
   */
  lemma DeployTokenRequest(feePayerKey58: string, tokenSymbol: string, tokenDecimals: int, src: Option<string>, network: Option<string>)
    ensures var args := ArgsOf(ClientCall.DeployToken(feePayerKey58, tokenSymbol, tokenDecimals, src, network));
            && ContractWorker.NonceUrl(ContractWorker.DeployNetwork(args))
                 == (if network == Some("Mainnet") then ContractWorker.MainnetUrl else ContractWorker.DevnetUrl)
            && ContractWorker.DeploySource(args)
                 == (if src.Some? && src.value != "" then Str(src.value) else Str(ContractWorker.DefaultSource))
            && Field(args, "tokenSymbol") == Str(tokenSymbol)
  {
  }

  class ContractWorkerClient {
    /** The id the next call is filed under. */
    var nextId: nat
    /** The `promises` table: continuations of the calls still waiting for a reply. */
    var pending: map<nat, Continuation>
    /** Every request posted to the worker, in order. */
    var outbox: seq<Request>
    /** Every resolve performed, in order. */
    var settled: seq<Settlement>
    /** The continuation each call was given, by id. */
    ghost var calls: seq<Continuation>

    /**
     * The table's invariant: the i-th request carries id i; every pending key
     * is below `nextId` and holds the continuation its call was given; every
     * resolve went to the continuation of the call with that id, whose entry is
     * gone; and no id was resolved twice.
     */
    ghost predicate Valid()
      reads this
    {
      && |outbox| == nextId == |calls|
      && (forall i :: 0 <= i < |outbox| ==> outbox[i].id == i)
      && (forall id :: id in pending ==> id < nextId && pending[id] == calls[id])
      && (forall j :: 0 <= j < |settled| ==>
            settled[j].id < nextId && settled[j].id !in pending && settled[j].cont == calls[settled[j].id])
      && (forall j, j' :: 0 <= j < j' < |settled| ==> settled[j].id != settled[j'].id)
    }

    constructor ()
      ensures Valid()
      ensures nextId == 0 && pending == map[] && outbox == [] && settled == []
    {
      nextId := 0;
      pending := map[];
      outbox := [];
      settled := [];
      calls := [];
    }

    /**
     * `_call`: files `k` under the current id, posts exactly one request with
     * that id and the given name and arguments, then advances the id by one.
     * No entry that was pending is overwritten or changed.
     */
    method Call(fn: Op, args: Value, k: Continuation) returns (id: nat)
      requires Valid()
      modifies this
      ensures Valid()
      ensures id == old(nextId) && nextId == id + 1
      ensures id !in old(pending) && pending == old(pending)[id := k]
      ensures outbox == old(outbox) + [Request(id, fn, args)]
      ensures settled == old(settled)
      ensures calls == old(calls) + [k]
    {
      id := nextId;
      pending := pending[id := k];
      outbox := outbox + [Request(id, fn, args)];
      calls := calls + [k];
      nextId := nextId + 1;
    }

    /** A wrapper method: one `_call` with the wrapper's operation and argument record. */
    method Invoke(c: ClientCall, k: Continuation) returns (id: nat)
      requires Valid()
      modifies this
      ensures Valid()
      ensures id == old(nextId) && nextId == id + 1
      ensures pending == old(pending)[id := k]
      ensures outbox == old(outbox) + [Request(id, OpOf(c), ArgsOf(c))]
      ensures settled == old(settled)
      ensures calls == old(calls) + [k]
    {
      id := Call(OpOf(c), ArgsOf(c), k);
    }

    /**
     * The `onmessage` handler. For a pending id it resolves that entry's
     * continuation with the payload and deletes the entry, leaving every other
     * entry as it was. For an id that is not pending (never issued, or already
     * resolved) reading `.resolve` of the missing entry throws before anything
     * changes, so the result is false and nothing is resolved.
     */
    method OnMessage(resp: Response) returns (resolved: bool)
      requires Valid()
      modifies this
      ensures Valid()
      ensures resolved == (resp.id in old(pending))
      ensures resolved ==> pending == old(pending) - {resp.id}
                           && settled == old(settled) + [Settlement(resp.id, old(pending)[resp.id], resp.data)]
      ensures !resolved ==> pending == old(pending) && settled == old(settled)
      ensures nextId == old(nextId) && outbox == old(outbox) && calls == old(calls)
    {
      if resp.id !in pending {
        return false;
      }
      var k := pending[resp.id];
      settled := settled + [Settlement(resp.id, k, resp.data)];
      pending := pending - {resp.id};
      resolved := true;
    }
  }
}
