/**
 * The messages exchanged between the page and the contract worker: the closed
 * set of operation names the worker registers, a request `{id, fn, args}` and
 * a reply `{id, data}`.
 */
module Protocol {
  import opened Wrappers
  import opened JsValues

  /** The worker's operation registry: one constructor per key of its `functions` table. */
  datatype Op =
    | SetActiveInstance
    | LoadContract
    | CompileContract
    | FetchAccountFunc
    | FetchTokenAccount
    | InitZkappInstance
    | GetBalance
    | GetDecimals
    | GetCirculating
    | CreateTransferTransaction
    | ProveTransaction
    | GetTransactionJson
    | GetAdminContract
    | DeriveTokenId
    | MintToken
    | DeployToken

  /** The key under which the worker registers `op`, as it travels in a request's `fn` field. */
  function Name(op: Op): string {
    match op
    case SetActiveInstance => "setActiveInstance"
    case LoadContract => "loadContract"
    case CompileContract => "compileContract"
    case FetchAccountFunc => "fetchAccountfunc"
    case FetchTokenAccount => "fetchTokenAccount"
    case InitZkappInstance => "initZkappInstance"
    case GetBalance => "getBalance"
    case GetDecimals => "getDecimals"
    case GetCirculating => "getCirculating"
    case CreateTransferTransaction => "createTransferTransaction"
    case ProveTransaction => "proveTransaction"
    case GetTransactionJson => "getTransactionJSON"
    case GetAdminContract => "getAdminContract"
    case DeriveTokenId => "deriveTokenId"
    case MintToken => "mintToken"
    case DeployToken => "deployToken"
  }

  /** Looking a name up in the registry: the operation registered under it, if any. */
  function Lookup(name: string): (r: Option<Op>)
    ensures r.Some? ==> Name(r.value) == name
    ensures r.None? ==> forall op: Op :: Name(op) != name
  {
    if name == "setActiveInstance" then Some(SetActiveInstance)
    else if name == "loadContract" then Some(LoadContract)
    else if name == "compileContract" then Some(CompileContract)
    else if name == "fetchAccountfunc" then Some(FetchAccountFunc)
    else if name == "fetchTokenAccount" then Some(FetchTokenAccount)
    else if name == "initZkappInstance" then Some(InitZkappInstance)
    else if name == "getBalance" then Some(GetBalance)
    else if name == "getDecimals" then Some(GetDecimals)
    else if name == "getCirculating" then Some(GetCirculating)
    else if name == "createTransferTransaction" then Some(CreateTransferTransaction)
    else if name == "proveTransaction" then Some(ProveTransaction)
    else if name == "getTransactionJSON" then Some(GetTransactionJson)
    else if name == "getAdminContract" then Some(GetAdminContract)
    else if name == "deriveTokenId" then Some(DeriveTokenId)
    else if name == "mintToken" then Some(MintToken)
    else if name == "deployToken" then Some(DeployToken)
    else None
  }

  /** Every registered operation is found again under its own name, so no two share a name. */
  lemma RegistryRoundTrip(op: Op)
    ensures Lookup(Name(op)) == Some(op)
  {
  }

  /** A request posted to the worker. */
  datatype Request = Request(id: nat, fn: Op, args: Value)

  /** The worker's reply to the request carrying the same id. */
  datatype Response = Response(id: nat, data: Value)
}
