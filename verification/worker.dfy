/**
 * The contract worker: the background context that owns the contract library.
 * It parses its network argument, chooses the network endpoint, keeps the
 * module-level `state` (contract classes, the token-contract instance, the last
 * transaction), and answers each request with one reply carrying the request's
 * id, or with none when the handler throws.
 *
 * The contract library itself is a parameter `lib`: for an operation and its
 * arguments it gives the outcome of the library calls the handler makes.
 * Every `state.X!` the handlers dereference is modelled: a missing value throws.
 */
module ContractWorker {
  import opened Wrappers
  import opened JsValues
  import opened Protocol

  const DevnetUrl := "https://proxy.devnet.minaexplorer.com/graphql"
  const MainnetUrl := "https://api.minascan.io/archive/mainnet/v1/graphql"

  /** The token source URL used when a deployment names none. */
  const DefaultSource := "https://github.com/MinaFoundation/mina-fungible-token/blob/main/FungibleToken.ts"

  /** The GraphQL endpoint of each known network (NETWORK_URLS). */
  const NetworkUrls: map<string, string> := map["Devnet" := DevnetUrl, "Mainnet" := MainnetUrl]

  const NotInitialised := "Error: zkapp instance not initialized"
  const NotDerived := "Error: Token ID could not be derived"
  const MintCreated := "Mint operation created successfully"
  const MintFailed := "Error: Mint operation could not be performed"

  /** Why a handler threw. */
  datatype Failure =
    | InvalidNetworkParameter   // `new Error("Invalid network parameter")`
    | InvalidNetwork            // `new Error("Invalid network")`
    | NullDereference           // a TypeError from reading a member of `null`
    | LibraryError(message: string)

  /** What a handler did: returned a value, or threw. */
  datatype Outcome = Returned(value: Value) | Threw(failure: Failure)

  /** The contract library, as the outcome of an operation's library calls on its arguments. */
  type Library = (Op, Value) -> Outcome

  /**
   * The network named by `setActiveInstance`'s argument: `undefined` takes the
   * default "Devnet", an object gives its `network` field when that is truthy,
   * a string is the name itself. `null` is an object to `typeof`, so reading
   * its field throws; anything else is an invalid parameter.
   */
  function ParseNetworkParam(arg: Value): (r: Result<Value, Failure>)
    ensures r.Ok? <==> arg.Undefined? || arg.Str? || (arg.Obj? && Truthy(Field(arg, "network")))
    ensures r.Ok? && arg.Obj? ==> r.value == Field(arg, "network")
    ensures arg.Undefined? ==> r == Ok(Str("Devnet"))
    ensures arg.Str? ==> r == Ok(arg)
    ensures r.Err? ==> r.error == (if arg.Null? then NullDereference else InvalidNetworkParameter)
  {
    match arg
    case Undefined => Ok(Str("Devnet"))
    case Null => Err(NullDereference)
    case Obj(_) =>
      var network := Field(arg, "network");
      if Truthy(network) then Ok(network) else Err(InvalidNetworkParameter)
    case Str(_) => Ok(arg)
    case _ => Err(InvalidNetworkParameter)
  }

  /** The endpoint `setActiveInstance` connects to: only the exact names "Devnet" and "Mainnet" select one. */
  function SelectEndpoint(network: Value): (r: Result<string, Failure>)
    ensures r.Ok? <==> network.Str? && network.s in NetworkUrls
    ensures r.Ok? ==> r.value == NetworkUrls[network.s]
    ensures r.Err? ==> r.error == InvalidNetwork
  {
    if network == Str("Devnet") then Ok(DevnetUrl)
    else if network == Str("Mainnet") then Ok(MainnetUrl)
    else Err(InvalidNetwork)
  }

  /** `setActiveInstance`'s whole decision: the endpoint it activates, or why it throws. */
  function ActiveInstanceUrl(arg: Value): (r: Result<string, Failure>)
    ensures r.Ok? <==> arg.Undefined? || arg in {Str("Devnet"), Str("Mainnet")}
                       || (arg.Obj? && Field(arg, "network") in {Str("Devnet"), Str("Mainnet")})
    ensures r.Ok? ==> r.value == (if arg == Str("Mainnet") || (arg.Obj? && Field(arg, "network") == Str("Mainnet"))
                                  then MainnetUrl else DevnetUrl)
  {
    match ParseNetworkParam(arg)
    case Ok(network) => SelectEndpoint(network)
    case Err(f) => Err(f)
  }

  /**
   * The endpoint `getInferredNonce` queries: the table entry for the network,
   * falling back to the Devnet entry for any other name (`undefined` takes the
   * default "Devnet"). A value that is not a string never names a table key.
   */
  function NonceUrl(network: Value): (r: string)
    ensures r in NetworkUrls.Values
    ensures SelectEndpoint(network).Ok? ==> r == SelectEndpoint(network).value
    ensures SelectEndpoint(network).Err? ==> r == NetworkUrls["Devnet"]
  {
    var url := if network.Str? && network.s in NetworkUrls then NetworkUrls[network.s] else "";
    if url != "" then url else NetworkUrls["Devnet"]
  }

  /** The network a deployment uses: `args.network || "Devnet"`. */
  function DeployNetwork(args: Value): (r: Value)
    ensures Truthy(r)
    ensures Truthy(Field(args, "network")) ==> r == Field(args, "network")
    ensures !Truthy(Field(args, "network")) ==> r == Str("Devnet")
  {
    Or(Field(args, "network"), Str("Devnet"))
  }

  /** The token source a deployment records: `args.src ||` the default source URL. */
  function DeploySource(args: Value): (r: Value)
    ensures Truthy(r)
    ensures Truthy(Field(args, "src")) ==> r == Field(args, "src")
    ensures !Truthy(Field(args, "src")) ==> r == Str(DefaultSource)
  {
    Or(Field(args, "src"), Str(DefaultSource))
  }

  /**
   * A deployment queries its nonce on Mainnet's endpoint exactly when it is
   * asked for "Mainnet", and on Devnet's for every other network, a missing or
   * empty one included.
   */
  lemma DeployDefaults(args: Value)
    ensures NonceUrl(DeployNetwork(args)) == (if Field(args, "network") == Str("Mainnet") then MainnetUrl else DevnetUrl)
  {
  }

  /** The two endpoint choices agree: on every network `setActiveInstance` accepts, it connects where nonces are queried. */
  lemma EndpointTablesAgree(network: Value)
    ensures SelectEndpoint(network).Ok? <==> network == Str("Devnet") || network == Str("Mainnet")
    ensures SelectEndpoint(network).Ok? ==> SelectEndpoint(network).value == NonceUrl(network)
    ensures NonceUrl(network) == (if network == Str("Mainnet") then MainnetUrl else DevnetUrl)
  {
  }

  /** A transaction the worker keeps in `state.transaction`, recorded by the handler that built it. */
  datatype Tx =
    | TransferTx(args: Value)
    | MintTx(args: Value)
    | DeployTx(nonceUrl: string, symbol: Value, src: Value)

  /** The worker's module-level state and the replies it has posted. */
  class Worker {
    /** The endpoint last passed to the library's `setActiveInstance`. */
    var activeEndpoint: Option<string>
    /** `state.FungibleToken` and `state.FungibleTokenAdmin` are set. */
    var contractsLoaded: bool
    /** `state.zkapp`: the token contract, by the address it was created for. */
    var zkapp: Option<Value>
    /** `state.transaction`. */
    var transaction: Option<Tx>
    /** Every reply posted back to the page, in order. */
    var replies: seq<Response>

    constructor ()
      ensures activeEndpoint == None && !contractsLoaded && zkapp == None && transaction == None
      ensures replies == []
    {
      activeEndpoint := None;
      contractsLoaded := false;
      zkapp := None;
      transaction := None;
      replies := [];
    }

    method SetActiveInstance(arg: Value) returns (o: Outcome)
      modifies this`activeEndpoint
      ensures ActiveInstanceUrl(arg).Ok? ==>
                o == Returned(Undefined) && activeEndpoint == Some(ActiveInstanceUrl(arg).value)
      ensures ActiveInstanceUrl(arg).Err? ==>
                o == Threw(ActiveInstanceUrl(arg).error) && activeEndpoint == old(activeEndpoint)
    {
      var network := ParseNetworkParam(arg);
      if network.Err? {
        return Threw(network.error);
      }
      var url := SelectEndpoint(network.value);
      if url.Err? {
        return Threw(url.error);
      }
      activeEndpoint := Some(url.value);
      o := Returned(Undefined);
    }

    method LoadContract(args: Value, lib: Library) returns (o: Outcome)
      modifies this`contractsLoaded
      ensures o.Returned? <==> lib(Op.LoadContract, args).Returned?
      ensures o.Returned? ==> o.value == Undefined
      ensures o.Threw? ==> o == lib(Op.LoadContract, args)
      ensures contractsLoaded == (old(contractsLoaded) || o.Returned?)
    {
      o := lib(Op.LoadContract, args);
      if o.Returned? {
        contractsLoaded := true;
        o := Returned(Undefined);
      }
    }

    /** `compileContract`: compiling needs the contract classes loaded. */
    method CompileContract(args: Value, lib: Library) returns (o: Outcome)
      ensures o.Returned? <==> contractsLoaded && lib(Op.CompileContract, args).Returned?
      ensures o.Returned? ==> o.value == Undefined
      ensures !contractsLoaded ==> o == Threw(NullDereference)
      ensures contractsLoaded && lib(Op.CompileContract, args).Threw? ==> o == lib(Op.CompileContract, args)
    {
      if !contractsLoaded {
        return Threw(NullDereference);
      }
      o := lib(Op.CompileContract, args);
      if o.Returned? {
        o := Returned(Undefined);
      }
    }

    /** `initZkappInstance`: the address is converted first, then the token class instantiated. */
    method InitZkappInstance(args: Value, lib: Library) returns (o: Outcome)
      modifies this`zkapp
      ensures o.Returned? <==> lib(Op.InitZkappInstance, args).Returned? && contractsLoaded
      ensures o.Returned? ==> o.value == Undefined && zkapp == Some(Field(args, "publicKey58"))
      ensures o.Threw? ==> zkapp == old(zkapp)
      ensures lib(Op.InitZkappInstance, args).Returned? && !contractsLoaded ==> o == Threw(NullDereference)
    {
      o := lib(Op.InitZkappInstance, args);
      if o.Threw? {
        return;
      }
      if !contractsLoaded {
        return Threw(NullDereference);
      }
      zkapp := Some(Field(args, "publicKey58"));
      o := Returned(Undefined);
    }

    /** `fetchTokenAccount`, `getBalance`, `getDecimals`, `getCirculating`: library reads through `state.zkapp!`. */
    method QueryZkapp(op: Op, args: Value, lib: Library) returns (o: Outcome)
      requires op in {Op.FetchTokenAccount, Op.GetBalance, Op.GetDecimals, Op.GetCirculating}
      ensures zkapp.None? ==> o == Threw(NullDereference)
      ensures zkapp.Some? ==> o == lib(op, args)
    {
      if zkapp.None? {
        return Threw(NullDereference);
      }
      o := lib(op, args);
    }

    method CreateTransferTransaction(args: Value, lib: Library) returns (o: Outcome)
      modifies this`transaction
      ensures o.Returned? <==> lib(Op.CreateTransferTransaction, args).Returned? && zkapp.Some?
      ensures o.Returned? ==> o.value == Undefined && transaction == Some(TransferTx(args))
      ensures o.Threw? ==> transaction == old(transaction)
    {
      o := lib(Op.CreateTransferTransaction, args);
      if o.Threw? {
        return;
      }
      if zkapp.None? {
        return Threw(NullDereference);
      }
      transaction := Some(TransferTx(args));
      o := Returned(Undefined);
    }

    /** `proveTransaction` (which returns nothing) and `getTransactionJSON`: library calls on `state.transaction!`. */
    method UseTransaction(op: Op, args: Value, lib: Library) returns (o: Outcome)
      requires op in {Op.ProveTransaction, Op.GetTransactionJson}
      ensures transaction.None? ==> o == Threw(NullDereference)
      ensures transaction.Some? && lib(op, args).Threw? ==> o == lib(op, args)
      ensures transaction.Some? && lib(op, args).Returned? ==>
                o == Returned(if op == Op.ProveTransaction then Undefined else lib(op, args).value)
    {
      if transaction.None? {
        return Threw(NullDereference);
      }
      o := lib(op, args);
      if o.Returned? && op == Op.ProveTransaction {
        o := Returned(Undefined);
      }
    }

    /** `getAdminContract` catches every failure and then returns `undefined`. */
    method GetAdminContract(args: Value, lib: Library) returns (o: Outcome)
      ensures o.Returned?
      ensures zkapp.Some? && lib(Op.GetAdminContract, args).Returned? ==> o == lib(Op.GetAdminContract, args)
      ensures zkapp.None? || lib(Op.GetAdminContract, args).Threw? ==> o == Returned(Undefined)
    {
      if zkapp.None? {
        return Returned(Undefined);
      }
      o := lib(Op.GetAdminContract, args);
      if o.Threw? {
        o := Returned(Undefined);
      }
    }

    /** `deriveTokenId` reports a missing instance and a library failure as sentinel strings instead of throwing. */
    method DeriveTokenId(args: Value, lib: Library) returns (o: Outcome)
      ensures o.Returned?
      ensures zkapp.None? ==> o == Returned(Str(NotInitialised))
      ensures zkapp.Some? && lib(Op.DeriveTokenId, args).Threw? ==> o == Returned(Str(NotDerived))
      ensures zkapp.Some? && lib(Op.DeriveTokenId, args).Returned? ==> o == lib(Op.DeriveTokenId, args)
    {
      if zkapp.None? {
        return Returned(Str(NotInitialised));
      }
      o := lib(Op.DeriveTokenId, args);
      if o.Threw? {
        o := Returned(Str(NotDerived));
      }
    }

    /** `mintToken` builds, proves and signs a mint; every failure becomes a sentinel string. */
    method MintToken(args: Value, lib: Library) returns (o: Outcome)
      modifies this`transaction
      ensures o.Returned?
      ensures o.value == Str(MintCreated) <==> zkapp.Some? && lib(Op.MintToken, args).Returned?
      ensures o.value == Str(MintCreated) ==> transaction == Some(MintTx(args))
      ensures o.value != Str(MintCreated) ==> o.value == Str(MintFailed) && transaction == old(transaction)
    {
      var built := lib(Op.MintToken, args);
      if built.Threw? || zkapp.None? {
        return Returned(Str(MintFailed));
      }
      transaction := Some(MintTx(args));
      o := Returned(Str(MintCreated));
    }

    /**
     * `deployToken` rethrows every failure. On success it keeps the deploy
     * transaction, which took its nonce from the endpoint of
     * `args.network || "Devnet"` and its source from `args.src ||` the default,
     * and returns the library's record of the new addresses and admin key.
     */
    method DeployToken(args: Value, lib: Library) returns (o: Outcome)
      modifies this`transaction
      ensures o.Returned? <==> lib(Op.DeployToken, args).Returned? && contractsLoaded
      ensures o.Returned? ==> o == lib(Op.DeployToken, args)
      ensures o.Returned? ==>
                transaction == Some(DeployTx(NonceUrl(DeployNetwork(args)), Field(args, "tokenSymbol"), DeploySource(args)))
      ensures o.Threw? ==> transaction == old(transaction)
    {
      o := lib(Op.DeployToken, args);
      if o.Threw? {
        return;
      }
      if !contractsLoaded {
        return Threw(NullDereference);
      }
      var network := DeployNetwork(args);
      transaction := Some(DeployTx(NonceUrl(network), Field(args, "tokenSymbol"), DeploySource(args)));
    }

    /**
     * Only the handlers that own a part of `state` change it, and a handler
     * that throws changes nothing.
     */
    twostate predicate HandlerFrame(fn: Op, o: Outcome)
      reads this
    {
      && (fn != Op.SetActiveInstance ==> activeEndpoint == old(activeEndpoint))
      && (fn != Op.LoadContract ==> contractsLoaded == old(contractsLoaded))
      && (fn != Op.InitZkappInstance ==> zkapp == old(zkapp))
      && (fn !in {Op.CreateTransferTransaction, Op.MintToken, Op.DeployToken} ==> transaction == old(transaction))
      && (o.Threw? ==>
            && activeEndpoint == old(activeEndpoint) && contractsLoaded == old(contractsLoaded)
            && zkapp == old(zkapp) && transaction == old(transaction))
    }

    /**
     * What the handler registered under `fn` gives, from the state before it
     * ran: each handler's outcome, including the sentinel strings and the
     * failures on a missing `state` value, and the state it sets on success.
     */
    twostate predicate HandlerOutcome(fn: Op, args: Value, lib: Library, o: Outcome)
      reads this
    {
      && (fn == Op.SetActiveInstance ==>
            && o == (if ActiveInstanceUrl(args).Ok? then Returned(Undefined) else Threw(ActiveInstanceUrl(args).error))
            && (o.Returned? ==> activeEndpoint == Some(ActiveInstanceUrl(args).value)))
      && (fn == Op.LoadContract ==>
            && o == (if lib(fn, args).Returned? then Returned(Undefined) else lib(fn, args))
            && (o.Returned? ==> contractsLoaded))
      && (fn == Op.CompileContract ==>
            o == (if !old(contractsLoaded) then Threw(NullDereference)
                  else if lib(fn, args).Returned? then Returned(Undefined) else lib(fn, args)))
      && (fn == Op.FetchAccountFunc ==> o == lib(fn, args))
      && (fn in {Op.FetchTokenAccount, Op.GetBalance, Op.GetDecimals, Op.GetCirculating} ==>
            o == (if old(zkapp).None? then Threw(NullDereference) else lib(fn, args)))
      && (fn == Op.InitZkappInstance ==>
            && (o.Returned? <==> lib(fn, args).Returned? && old(contractsLoaded))
            && (o.Returned? ==> o.value == Undefined && zkapp == Some(Field(args, "publicKey58"))))
      && (fn == Op.CreateTransferTransaction ==>
            && (o.Returned? <==> lib(fn, args).Returned? && old(zkapp).Some?)
            && (o.Returned? ==> o.value == Undefined && transaction == Some(TransferTx(args))))
      && (fn in {Op.ProveTransaction, Op.GetTransactionJson} ==>
            o == (if old(transaction).None? then Threw(NullDereference)
                  else if lib(fn, args).Threw? then lib(fn, args)
                  else Returned(if fn == Op.ProveTransaction then Undefined else lib(fn, args).value)))
      && (fn == Op.GetAdminContract ==>
            o == (if old(zkapp).Some? && lib(fn, args).Returned? then lib(fn, args) else Returned(Undefined)))
      && (fn == Op.DeriveTokenId ==>
            o == (if old(zkapp).None? then Returned(Str(NotInitialised))
                  else if lib(fn, args).Threw? then Returned(Str(NotDerived)) else lib(fn, args)))
      && (fn == Op.MintToken ==>
            && o == Returned(Str(if old(zkapp).Some? && lib(fn, args).Returned? then MintCreated else MintFailed))
            && (o == Returned(Str(MintCreated)) ==> transaction == Some(MintTx(args)))
            && (o == Returned(Str(MintFailed)) ==> transaction == old(transaction)))
      && (fn == Op.DeployToken ==>
            && (o.Returned? <==> lib(fn, args).Returned? && old(contractsLoaded))
            && (o.Returned? ==>
                  && o == lib(fn, args)
                  && transaction == Some(DeployTx(NonceUrl(DeployNetwork(args)), Field(args, "tokenSymbol"), DeploySource(args)))))
    }

    /** Runs the handler registered under `fn`. */
    method Dispatch(fn: Op, args: Value, lib: Library) returns (o: Outcome)
      modifies this`activeEndpoint, this`contractsLoaded, this`zkapp, this`transaction
      ensures HandlerFrame(fn, o)
      ensures HandlerOutcome(fn, args, lib, o)
    {
      match fn
      case SetActiveInstance => o := SetActiveInstance(args);
      case LoadContract => o := LoadContract(args, lib);
      case CompileContract => o := CompileContract(args, lib);
      case FetchAccountFunc => o := lib(Op.FetchAccountFunc, args);
      case FetchTokenAccount => o := QueryZkapp(fn, args, lib);
      case InitZkappInstance => o := InitZkappInstance(args, lib);
      case GetBalance => o := QueryZkapp(fn, args, lib);
      case GetDecimals => o := QueryZkapp(fn, args, lib);
      case GetCirculating => o := QueryZkapp(fn, args, lib);
      case CreateTransferTransaction => o := CreateTransferTransaction(args, lib);
      case ProveTransaction => o := UseTransaction(fn, args, lib);
      case GetTransactionJson => o := UseTransaction(fn, args, lib);
      case GetAdminContract => o := GetAdminContract(args, lib);
      case DeriveTokenId => o := DeriveTokenId(args, lib);
      case MintToken => o := MintToken(args, lib);
      case DeployToken => o := DeployToken(args, lib);
    }

    /**
     * The `message` listener: runs the requested handler and posts exactly one
     * reply carrying the request's id and the handler's result. When the handler
     * throws, nothing is posted.
     */
    method OnMessage(req: Request, lib: Library) returns (o: Outcome)
      modifies this
      ensures replies == old(replies) + (if o.Returned? then [Response(req.id, o.value)] else [])
      ensures HandlerFrame(req.fn, o)
      ensures HandlerOutcome(req.fn, req.args, lib, o)
    {
      o := Dispatch(req.fn, req.args, lib);
      if o.Returned? {
        replies := replies + [Response(req.id, o.value)];
      }
    }
  }
}
