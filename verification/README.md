# Token manager front end: a verified model of its logic

This project models, in Dafny, the logic of a browser front end for fungible
tokens on the Mina network. The zero-knowledge contract library and the wallet
extension do the cryptographic work; the model covers the logic around them:

- **The worker channel.** The page talks to a background worker through
  `ContractWorkerClient`. Each call is filed under a fresh id in a pending
  table and posted as a request `{id, fn, args}`. The worker runs the named
  handler and posts one reply `{id, data}`. The client resolves the call filed
  under that id and deletes its entry. Modules: `Protocol`, `WorkerClient`,
  `ContractWorker` and `Channel` (both ends together).
- **The worker's own decisions.** It parses the `setActiveInstance` argument
  and picks a network endpoint. It also picks the endpoint it queries for a
  nonce and applies the deployment defaults. Its module-level `state` records
  the loaded contract classes, the token-contract instance and the last
  transaction; a handler that finds one of these missing fails on it. Some
  handlers turn failures into sentinel strings instead of throwing.
- **The token list in browser storage.** The "my tokens" page imports and
  removes records. The deployment form appends a record after a complete
  deployment. The token page restores the network name, shows a record's
  details with defaults, finds its admin private key and merges in details
  fetched from the worker. Modules: `TokenStore`, `MyTokens`, `DeployForm`,
  `TokenPage`, with `Ascii` for letter case.

State that the source changes in place is modelled as classes, one per owner:
- `ContractWorkerClient`: `nextId`, the `pending` table, the posted requests and the resolves performed.
- `Worker`: the worker's `state` and the replies it has posted.
- `MyTokensPage`, `TokenPageState` and `DeployFormState`: the component state, with storage as a field.

Pure computations are functions, with lemmas relating them to each other.

Two behaviours of the code that the model states outright:
- A reply whose id is not pending is not ignored quietly. The handler reads
  `.resolve` of a missing entry and throws a TypeError before it deletes anything.
  The pending table is unchanged either way. `OnMessage` returns `false` for such a reply.
- The worker has no error reply. A handler that throws posts nothing, so the
  caller's entry stays pending for good. `Worker.OnMessage` and `Channel.RoundTrip` state this.

## Model

| member | source | states |
|---|---|---|
| `Protocol.Lookup` | ui/src/pages/contractWorker.ts:322 | looking a name up in the handler table yields the operation registered under exactly that name, or none when no operation has it |
| `Protocol.RegistryRoundTrip` | ui/src/pages/contractWorker.ts:51-301 | the keys `Name` gives the handlers of the `functions` table: every operation is found again under its own key, so no two operations share a key |
| `ContractWorker.ParseNetworkParam` | ui/src/pages/contractWorker.ts:52-62 | the argument is accepted exactly when it is `undefined`, a string, or an object with a truthy `network`; `undefined` yields "Devnet", a string yields itself and an object its `network`; `null` fails on the field read; every other argument, an object with an empty `network` included, is an invalid parameter |
| `ContractWorker.SelectEndpoint` | ui/src/pages/contractWorker.ts:65-72 | an endpoint is chosen exactly for the strings "Devnet" and "Mainnet", and it is that network's entry in the URL table; any other value is an invalid network |
| `ContractWorker.ActiveInstanceUrl` | ui/src/pages/contractWorker.ts:52-72 | `setActiveInstance` succeeds exactly for `undefined`, the strings "Devnet"/"Mainnet", or an object whose `network` is one of them, and then activates Mainnet's endpoint exactly when "Mainnet" was named and Devnet's otherwise |
| `ContractWorker.NonceUrl` | ui/src/pages/contractWorker.ts:22-23 | the nonce endpoint is always a table entry: the one `setActiveInstance` would choose for an accepted network, the Devnet one for every other name |
| `ContractWorker.EndpointTablesAgree` | ui/src/pages/contractWorker.ts:17-20 | the URL table and `setActiveInstance`'s branches agree: accepted networks are exactly "Devnet" and "Mainnet", and both choices give the same URL |
| `ContractWorker.DeployNetwork` | ui/src/pages/contractWorker.ts:241 | the deployment's network is always truthy: the given one when truthy, "Devnet" otherwise |
| `ContractWorker.DeploySource` | ui/src/pages/contractWorker.ts:264-266 | the recorded source is always truthy: the given `src` when truthy, the default FungibleToken URL otherwise |
| `ContractWorker.DeployDefaults` | ui/src/pages/contractWorker.ts:241-244 | a deployment queries Mainnet's endpoint exactly when asked for "Mainnet", and Devnet's for every other network, a missing or empty one included |
| `ContractWorker.Worker.constructor` | ui/src/pages/contractWorker.ts:42-47 | the worker starts with no endpoint, no contract classes, no instance, no transaction and no replies |
| `ContractWorker.Worker.SetActiveInstance` | ui/src/pages/contractWorker.ts:52-76 | on an accepted argument the chosen endpoint becomes active and the handler returns; otherwise it throws the parsing or network error and the active endpoint is unchanged |
| `ContractWorker.Worker.LoadContract` | ui/src/pages/contractWorker.ts:77-86 | the contract classes are loaded exactly when the imports succeed; a failed import throws |
| `ContractWorker.Worker.CompileContract` | ui/src/pages/contractWorker.ts:87-94 | compiling without loaded classes throws; otherwise the outcome is the library's, returning nothing |
| `ContractWorker.Worker.InitZkappInstance` | ui/src/pages/contractWorker.ts:109-112 | on success the instance is the one for `args.publicKey58`; with the classes not loaded it throws, and a throw leaves the instance as it was |
| `ContractWorker.Worker.QueryZkapp` | ui/src/pages/contractWorker.ts:99-126 | `fetchTokenAccount`, `getBalance`, `getDecimals` and `getCirculating` throw when no instance is set, and otherwise give the library's outcome |
| `ContractWorker.Worker.CreateTransferTransaction` | ui/src/pages/contractWorker.ts:127-139 | the transfer becomes the current transaction only when the library succeeds and an instance is set; a throw keeps the old transaction |
| `ContractWorker.Worker.UseTransaction` | ui/src/pages/contractWorker.ts:140-145 | proving and `getTransactionJSON` throw when there is no transaction; proving returns nothing, `getTransactionJSON` returns the library's JSON |
| `ContractWorker.Worker.GetAdminContract` | ui/src/pages/contractWorker.ts:146-156 | never throws: the library's address when an instance is set and the call succeeds, `undefined` otherwise |
| `ContractWorker.Worker.DeriveTokenId` | ui/src/pages/contractWorker.ts:157-170 | never throws: "Error: zkapp instance not initialized" without an instance, "Error: Token ID could not be derived" when the library fails, the token id otherwise |
| `ContractWorker.Worker.MintToken` | ui/src/pages/contractWorker.ts:171-207 | never throws: "Mint operation created successfully" exactly when an instance is set and the library succeeds, and then the mint is the current transaction; otherwise "Error: Mint operation could not be performed" and the transaction is unchanged |
| `ContractWorker.Worker.DeployToken` | ui/src/pages/contractWorker.ts:209-300 | succeeds exactly when the library succeeds and the classes are loaded, returning the library's addresses and key; the kept transaction used the nonce endpoint of `args.network` or "Devnet" and the given or default source; failures are rethrown and keep the old transaction |
| `ContractWorker.Worker.Dispatch` | ui/src/pages/contractWorker.ts:322 | runs the handler registered under the name: its outcome is that handler's, from the state before the call (the sentinel strings, a failed mint leaving the transaction as it was, the failures on a missing instance, transaction or contract classes, the library's result); each part of `state` is changed only by the handlers that own it; a handler that throws changes nothing |
| `ContractWorker.Worker.OnMessage` | ui/src/pages/contractWorker.ts:319-330 | runs the named handler with the same outcome and state change as `Dispatch`, and posts exactly one reply, with the request's id and that result, when the handler returns, and none when it throws |
| `WorkerClient.OpOf` | ui/src/pages/contractWorkerClient.ts:12-112 | `fetchAccountfunc` is sent by `fetchAccount` and by no other wrapper |
| `WorkerClient.EveryOperationHasWrapper` | ui/src/pages/contractWorkerClient.ts:12-112 | every operation the worker registers is sent by some client wrapper |
| `WorkerClient.ArgsOf` | ui/src/pages/contractWorkerClient.ts:12-112 | every wrapper sends an object; the fields the worker reads carry the wrapper's arguments (`publicKey58`, `tokenSymbol`, `src`), and `setActiveInstance` and `deployToken` send the given network or "Devnet" |
| `WorkerClient.WrapperRequests` | ui/src/pages/contractWorkerClient.ts:12-112 | every wrapper names a registered operation; `fetchAccount` sends `fetchAccountfunc` with exactly `{publicKey58}`; `setActiveInstance` without a network sends exactly `{network: "Devnet"}` |
| `WorkerClient.SetActiveInstanceRequest` | ui/src/pages/contractWorkerClient.ts:12-14 | the worker parses the client's request back to the given network or "Devnet"; an empty name arrives as an object with a falsy `network` and is an invalid parameter; the request is accepted exactly for a table network |
| `WorkerClient.DeployTokenRequest` | ui/src/pages/contractWorkerClient.ts:94-112 | a client deployment queries Mainnet's endpoint exactly when "Mainnet" is passed, uses the default source for a missing or empty one, and passes the symbol through |
| `WorkerClient.ContractWorkerClient.constructor` | ui/src/pages/contractWorkerClient.ts:124-127 | a fresh client has `nextId = 0`, an empty pending table, nothing posted and nothing resolved, and satisfies the table invariant |
| `WorkerClient.ContractWorkerClient.Call` | ui/src/pages/contractWorkerClient.ts:135-149 | the continuation is filed under the old `nextId`, which was not pending; exactly one request with that id and the given name and arguments is posted; `nextId` grows by one; no other entry changes; the invariant (every pending key below `nextId`, ids of requests consecutive, no id resolved twice) is kept |
| `WorkerClient.ContractWorkerClient.Invoke` | ui/src/pages/contractWorkerClient.ts:12-112 | a wrapper method is one `_call` with its operation and argument record |
| `WorkerClient.ContractWorkerClient.OnMessage` | ui/src/pages/contractWorkerClient.ts:129-132 | a reply for a pending id resolves that entry's continuation with the payload and deletes just that entry; a reply for any other id resolves nothing and changes nothing |
| `Channel.RoundTrip` | ui/src/pages/contractWorkerClient.ts:129-148 | end to end: the outcome and the worker's new state are those of the handler the wrapper names, on the wrapper's argument record; when the handler returns, the worker replies with the call's id and the client resolves exactly the caller's continuation with that result; when it throws, the call stays pending |
| `Channel.RepliesInReverseOrder` | ui/src/pages/contractWorkerClient.ts:129-147 | three calls answered in reverse order each settle their own caller with their own payload |
| `Channel.DuplicateAndUnknownReplies` | ui/src/pages/contractWorkerClient.ts:129-132 | a repeated reply and a reply with an unissued id settle nothing; the other call stays pending |
| `TokenStore.NewRecord` | ui/src/pages/my-tokens.tsx:37-43 | a new record has the given id, address and admin keys, status Launched, and no display fields |
| `TokenStore.OptionalText` | ui/src/pages/my-tokens.tsx:40-41 | an empty input is stored as absent, any other as itself |
| `TokenStore.RemoveById` | ui/src/pages/my-tokens.tsx:67 | the result holds exactly the records whose id differs from the given one |
| `TokenStore.RemoveAppend` | ui/src/pages/my-tokens.tsx:67 | removal distributes over concatenation, so the kept records stay in their original order |
| `TokenStore.RemoveAbsent` | ui/src/pages/my-tokens.tsx:67 | removing an id no record has leaves the list unchanged |
| `TokenStore.RemoveIdempotent` | ui/src/pages/my-tokens.tsx:67 | removing the same id twice equals removing it once |
| `TokenStore.FirstWithAddress` | ui/src/pages/token.tsx:76 | the index of the first record with the address: no earlier record has it, and the one there does, or there is none |
| `TokenStore.FindByAddress` | ui/src/pages/token.tsx:76 | finds nothing exactly when no record has the address; otherwise the first record with that address |
| `TokenStore.FindAfterAppend` | ui/src/pages/token.tsx:76 | appending a record changes what an address finds only when nothing had it before, and then finds the new record if it matches |
| `TokenStore.AdminKeyFor` | ui/src/pages/token.tsx:167-172 | the key of the first record with the address when it is present and non-empty; absent otherwise |
| `Ascii.LowerStr` | ui/src/pages/token.tsx:36 | lower-casing keeps the length and lower-cases each character in place |
| `MyTokens.ImportedRecord` | ui/src/pages/my-tokens.tsx:36-43 | an imported record has the given id and address, status Launched, and empty admin keys stored as absent |
| `MyTokens.ImportIsFound` | ui/src/pages/my-tokens.tsx:45-46 | after importing an address no record had, the token page finds the new record, and its admin key exactly when one was typed |
| `MyTokens.RemoveUndoesImport` | ui/src/pages/my-tokens.tsx:67 | removing the id of the record just imported (with an id not used before) gives back the earlier list |
| `MyTokens.MyTokensPage.constructor` | ui/src/pages/my-tokens.tsx:25-34 | the page loads the stored list, empty when nothing is stored, and storage equals the list |
| `MyTokens.MyTokensPage.EditImportForm` | ui/src/pages/my-tokens.tsx:180-205 | opening the form and typing sets the three input fields |
| `MyTokens.MyTokensPage.ImportToken` | ui/src/pages/my-tokens.tsx:36-51 | exactly one record, built from the inputs, is appended after the unchanged earlier ones; storage equals the list; the form is closed and its fields emptied |
| `MyTokens.MyTokensPage.RemoveToken` | ui/src/pages/my-tokens.tsx:65-72 | when confirmed, the list becomes the records with a different id, in order, and storage equals it; unconfirmed, nothing changes |
| `TokenPage.NormaliseNetwork` | ui/src/pages/token.tsx:33-39 | the restored name is normalised (first character upper case, the rest lower case) and differs from the stored one only in case; "Devnet" when nothing usable is stored |
| `TokenPage.NormalisedUnique` | ui/src/pages/token.tsx:36 | two normalised names that differ only in case are equal |
| `TokenPage.NormaliseFixesNormalised` | ui/src/pages/token.tsx:36 | normalising an already-normalised name returns it unchanged |
| `TokenPage.NormaliseIdempotent` | ui/src/pages/token.tsx:36 | normalising twice equals normalising once |
| `TokenPage.RestoredNetworkIsAccepted` | ui/src/pages/token.tsx:101 | the worker accepts the page's `setActiveInstance` request (the object `{network}`) for the restored network exactly when nothing usable is stored or the stored name is "devnet" or "mainnet" in any case |
| `TokenPage.Details` | ui/src/pages/token.tsx:78-86 | each display field is kept when the record gives it and defaults to "Unknown", "UNKNOWN" or "N/A" otherwise; the address is copied |
| `TokenPage.DetailsDefaults` | ui/src/pages/token.tsx:78-86 | a record the pages created shows every default, with its address |
| `TokenPage.Merge` | ui/src/pages/token.tsx:133-139 | the four fetched fields replace the old ones; name, symbol and address are kept, or absent when there was no token |
| `TokenPage.TokenPageState.constructor` | ui/src/pages/token.tsx:33-50 | the page starts with the normalised network, no token and no admin key |
| `TokenPage.TokenPageState.LoadToken` | ui/src/pages/token.tsx:70-92 | with a non-empty address and a stored list, the token becomes the details of the first matching record; with no match or nothing stored it is unchanged |
| `TokenPage.TokenPageState.LoadAdminKey` | ui/src/pages/token.tsx:161-180 | for a shown token with a non-empty address and a stored list, the admin key becomes the matching record's non-empty key, or absent; otherwise unchanged |
| `TokenPage.TokenPageState.MergeFetched` | ui/src/pages/token.tsx:133-139 | the shown token becomes the merge of the old one with the fetched fields |
| `DeployForm.CheckComplete` | ui/src/components/DeployForm.tsx:110-119 | a deployment is recorded exactly when contract address, admin address, admin private key and send hash are all non-empty, and carries those values; otherwise the error is "Deployment result is incomplete" |
| `DeployForm.DeployedRecord` | ui/src/components/DeployForm.tsx:122-128 | the new record maps address to the contract address and the admin keys to the admin address and private key, with status Launched |
| `DeployForm.DeployedKeyIsFound` | ui/src/components/DeployForm.tsx:130-131 | after a complete deployment with a new address, the token page finds its record and its admin private key |
| `DeployForm.DeployFormState.constructor` | ui/src/components/DeployForm.tsx:7-23 | the form starts not loading, without error, result or worker calls |
| `DeployForm.DeployFormState.HandleSubmit` | ui/src/components/DeployForm.tsx:79-141 | without a wallet or worker client it only alerts and nothing changes. Otherwise it calls `deployToken`, then `getTransactionJSON` if that succeeded. A complete result is shown and appended to the stored list (a missing list taken as empty). Any failure sets the error message and stores nothing. Loading always ends false |

## Left out

- The contract library (compiling, `Mina.transaction`, proving, signing,
  `toJSON`, `fetchAccount`, base58 key conversion, `UInt64`/`UInt8`, random
  keys) is not modelled. The worker takes it as a parameter `lib`, giving each
  operation's outcome on its arguments. Its results are stand-ins: for
  example, the transaction records only which handler built it.
- The GraphQL nonce query and the `Number` conversion of its answer are network
  I/O. The model keeps only the endpoint chosen for it.
- Which library call fails first inside a handler is not modelled. When the
  library and a missing `state` value could both fail, the model reports one of
  the two failures. The failure is never sent to the page, so nothing
  observable depends on which one.
- Protocol.Lookup: the handler table is a plain object, so names
  inherited from `Object.prototype` ("constructor", "toString" and the like)
  also find a member there. Requests carry a registered operation, so neither
  such names nor unregistered ones (whose call throws, so nothing is posted)
  can be expressed.
- The worker registers its `message` listener only when `typeof window !==
  "undefined"`. The model assumes that test passes in the worker, as the
  bundled page depends on it; read literally, a dedicated worker has no
  `window`, and then no request would ever be answered.
- The library parameter `lib` is a pure function of the operation and its
  arguments. It does not see the worker's state, so the JSON of
  `getTransactionJSON` does not depend on the kept transaction. Two deployments
  with the same arguments get the same result here, while `PrivateKey.random()`
  gives each deployment fresh keys. Nothing proved relies on either.
- ContractWorker.NonceUrl: looks only at the URL table's own two keys. Names
  that reach inherited properties of a JavaScript object, such as "toString",
  are not modelled.
- The wallet extension (`getAccounts`, `sendTransaction`, account events) is
  not modelled. The send's outcome is an input to `HandleSubmit`, and the
  wallet check that sets `adminWallet` is not part of this model.
- Worker construction, Promise scheduling and the event loop are not modelled.
  Calls and replies are modelled as a sequence of steps.
- DeployForm.DeployFormState.HandleSubmit: takes the settled outcomes of its
  awaited calls as inputs, so "loading ends false" is stated only for calls
  that settle. A worker handler that throws never replies, and then the real
  submit waits forever with loading on. A `deployed` failure (`Err`) stands for
  no reachable case of the code as it is, since `_call` never rejects its
  Promise; it is kept so that the `catch` branch is modelled whole.
- Browser storage, `JSON.parse`/`JSON.stringify`, the clipboard and
  `window.confirm` are not modelled. Storage is a field, and confirmation is a
  boolean input. The transient write of the empty list when "my tokens" mounts
  (before the loaded list is set) is not modelled.
- `Date.now()` and `uuidv4()` ids are not modelled; they are parameters. Ids from
  `Date.now()` need not be unique, so `RemoveToken` removes every record with
  the id.
- `parseInt` of the decimals field and the 0.1 fee are not modelled. The
  decimals are an integer input.
- Case mapping covers ASCII letters only. JavaScript's full Unicode case
  mapping, which can change a string's length, is not modelled.
- The token page's server-side rendering branch is not modelled: without
  `window`, the network is always "Devnet".
- Stored display fields are modelled as text, and numbers stored there are not
  modelled.
- Query parameters given as arrays are not modelled: the URL's address is either
  one string or absent.
- Status strings, toasts, alerts and rendering are not modelled. The forms
  `MintForm.tsx`, `TransferForm.tsx`, `BalanceForm.tsx`, `Header.tsx`,
  `index.tsx`, `deploy.tsx` and `Footer.tsx` are not part of this model.
