/**
 * The deployment form's submit handler: it asks the worker to deploy, has
 * the wallet send the transaction, checks that the result is complete, and
 * only then appends the new token to the stored list.
 */
module DeployForm {
  import opened Wrappers
  import opened TokenStore
  import opened WorkerClient

  /** What the worker's `deployToken` resolves with. */
  datatype DeployResult = DeployResult(contractAddress: string, adminAddress: string, adminPrivateKey: string)

  /** The result the form shows after a complete deployment. */
  datatype Deployment = Deployment(contractAddress: string, adminAddress: string, adminPrivateKey: string, transactionHash: string)

  const Incomplete := "Deployment result is incomplete"
  const DeploymentFailed := "Deployment failed. Please try again."

  /**
   * The completeness check: the deployment is recorded only when the contract
   * address, the admin address, the admin private key and the send hash are
   * all non-empty; otherwise the submit throws.
   */
  function CheckComplete(d: DeployResult, hash: Option<string>): (r: Result<Deployment, string>)
    ensures r.Ok? <==> d.contractAddress != "" && d.adminAddress != "" && d.adminPrivateKey != ""
                       && hash.Some? && hash.value != ""
    ensures r.Ok? ==> r.value.contractAddress == d.contractAddress && r.value.adminAddress == d.adminAddress
                      && r.value.adminPrivateKey == d.adminPrivateKey && Some(r.value.transactionHash) == hash
    ensures r.Err? ==> r.error == Incomplete
  {
    if d.contractAddress != "" && d.adminAddress != "" && d.adminPrivateKey != "" && hash.Some? && hash.value != "" then
      Ok(Deployment(d.contractAddress, d.adminAddress, d.adminPrivateKey, hash.value))
    else
      Err(Incomplete)
  }

  /** The record a deployment stores: the contract address, with the admin keys. `id` stands for a fresh UUID. */
  function DeployedRecord(id: string, d: Deployment): (t: StoredToken)
    ensures t.id == id && t.address == d.contractAddress && t.status == Launched
    ensures t.adminPublicKey == Some(d.adminAddress) && t.adminPrivateKey == Some(d.adminPrivateKey)
  {
    NewRecord(id, d.contractAddress, Some(d.adminAddress), Some(d.adminPrivateKey))
  }

  /**
   * A recorded deployment is found again by the token page under its contract
   * address, with its admin private key, when no earlier record had that address.
   */
  lemma DeployedKeyIsFound(stored: Option<seq<StoredToken>>, id: string, d: DeployResult, hash: Option<string>)
    requires CheckComplete(d, hash).Ok?
    requires forall i :: 0 <= i < |stored.GetOr([])| ==> stored.GetOr([])[i].address != d.contractAddress
    ensures var tokens := stored.GetOr([]) + [DeployedRecord(id, CheckComplete(d, hash).value)];
            && FindByAddress(tokens, d.contractAddress) == Some(DeployedRecord(id, CheckComplete(d, hash).value))
            && AdminKeyFor(tokens, d.contractAddress) == Some(d.adminPrivateKey)
  {
    FindAfterAppend(stored.GetOr([]), DeployedRecord(id, CheckComplete(d, hash).value), d.contractAddress);
  }

  class DeployFormState {
    /** The connected wallet account, if any. */
    var adminWallet: Option<string>
    /** A worker client has been set up. */
    var workerReady: bool
    var isLoading: bool
    var error: Option<string>
    var deploymentResult: Option<Deployment>
    /** The list under the storage key `tokens`; absent when nothing was ever stored. */
    var stored: Option<seq<StoredToken>>
    /** The worker calls the handler has made, in order. */
    var workerCalls: seq<ClientCall>

    constructor (wallet: Option<string>, ready: bool, storedTokens: Option<seq<StoredToken>>)
      ensures adminWallet == wallet && workerReady == ready && stored == storedTokens
      ensures !isLoading && error == None && deploymentResult == None && workerCalls == []
    {
      adminWallet, workerReady, stored := wallet, ready, storedTokens;
      isLoading, error, deploymentResult, workerCalls := false, None, None, [];
    }

    /**
     * `handleSubmit`. Without a connected wallet or a worker client it only
     * alerts. Otherwise it asks the worker to deploy (`deployed` is how that
     * call settled), fetches the transaction JSON, has the wallet send it
     * (`sent` is the hash the wallet returned, or its failure), and checks the
     * result. A complete result is shown and its record appended to the stored
     * list (a missing list counts as empty); any failure sets the error message
     * and stores nothing. Loading ends in every case.
     */
    method HandleSubmit(feePayerKey: string, tokenSymbol: string, decimals: int, sourceUrl: string, network: string,
                        deployed: Result<DeployResult, string>, sent: Result<Option<string>, string>, id: string)
      returns (alerted: bool)
      modifies this
      ensures alerted <==> adminWallet.None? || adminWallet == Some("") || !workerReady
      ensures adminWallet == old(adminWallet) && workerReady == old(workerReady)
      ensures alerted ==> isLoading == old(isLoading) && error == old(error)
                          && deploymentResult == old(deploymentResult) && stored == old(stored)
                          && workerCalls == old(workerCalls)
      ensures !alerted ==> !isLoading
      ensures !alerted ==>
                var deploy := ClientCall.DeployToken(feePayerKey, tokenSymbol, decimals, Some(sourceUrl), Some(network));
                workerCalls == old(workerCalls) + (if deployed.Ok? then [deploy, ClientCall.GetTransactionJson] else [deploy])
      ensures !alerted ==>
                var complete := deployed.Ok? && sent.Ok? && CheckComplete(deployed.value, sent.value).Ok?;
                && (complete ==>
                      var d := CheckComplete(deployed.value, sent.value).value;
                      && deploymentResult == Some(d)
                      && stored == Some(old(stored).GetOr([]) + [DeployedRecord(id, d)])
                      && error == None)
                && (!complete ==>
                      && deploymentResult == old(deploymentResult)
                      && stored == old(stored)
                      && error == Some(DeploymentFailed))
    {
      if adminWallet.None? || adminWallet == Some("") || !workerReady {
        return true;
      }
      alerted := false;
      isLoading := true;
      error := None;
      workerCalls := workerCalls + [ClientCall.DeployToken(feePayerKey, tokenSymbol, decimals, Some(sourceUrl), Some(network))];
      var failed := true;
      if deployed.Ok? {
        workerCalls := workerCalls + [ClientCall.GetTransactionJson];
        if sent.Ok? {
          var checked := CheckComplete(deployed.value, sent.value);
          if checked.Ok? {
            deploymentResult := Some(checked.value);
            var existing := stored.GetOr([]);
            stored := Some(existing + [DeployedRecord(id, checked.value)]);
            failed := false;
          }
        }
      }
      if failed {
        error := Some(DeploymentFailed);
      }
      isLoading := false;
    }
  }
}
