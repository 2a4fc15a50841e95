/**
 * The "my tokens" page: the in-memory token list, its copy in storage, and
 * the import form. Every change to the list is written to storage at once.
 */
module MyTokens {
  import opened Wrappers
  import opened TokenStore

  /** The record an import creates: the typed address, with empty admin keys stored as absent. */
  function ImportedRecord(id: string, tokenAddress: string, adminPublicKey: string, adminPrivateKey: string): (r: StoredToken)
    ensures r.id == id && r.address == tokenAddress && r.status == Launched
    ensures r.adminPublicKey == OptionalText(adminPublicKey) && r.adminPrivateKey == OptionalText(adminPrivateKey)
  {
    NewRecord(id, tokenAddress, OptionalText(adminPublicKey), OptionalText(adminPrivateKey))
  }

  /**
   * Importing a token whose address no record has yet makes the token page
   * find the new record, and show its private key exactly when one was typed.
   */
  lemma ImportIsFound(tokens: seq<StoredToken>, id: string, tokenAddress: string, adminPublicKey: string, adminPrivateKey: string)
    requires forall i :: 0 <= i < |tokens| ==> tokens[i].address != tokenAddress
    ensures FindByAddress(tokens + [ImportedRecord(id, tokenAddress, adminPublicKey, adminPrivateKey)], tokenAddress)
              == Some(ImportedRecord(id, tokenAddress, adminPublicKey, adminPrivateKey))
    ensures AdminKeyFor(tokens + [ImportedRecord(id, tokenAddress, adminPublicKey, adminPrivateKey)], tokenAddress)
              == OptionalText(adminPrivateKey)
  {
    FindAfterAppend(tokens, ImportedRecord(id, tokenAddress, adminPublicKey, adminPrivateKey), tokenAddress);
  }

  /**
   * Importing and then removing the new record's id gives back the list as it
   * was, when no earlier record had that id.
   */
  lemma RemoveUndoesImport(tokens: seq<StoredToken>, id: string, tokenAddress: string, adminPublicKey: string, adminPrivateKey: string)
    requires forall i :: 0 <= i < |tokens| ==> tokens[i].id != id
    ensures RemoveById(tokens + [ImportedRecord(id, tokenAddress, adminPublicKey, adminPrivateKey)], id) == tokens
  {
    var t := ImportedRecord(id, tokenAddress, adminPublicKey, adminPrivateKey);
    RemoveAppend(tokens, [t], id);
    RemoveAbsent(tokens, id);
    assert RemoveById([t], id) == [];
  }

  class MyTokensPage {
    var tokens: seq<StoredToken>
    /** The list under the storage key `tokens`. */
    var stored: seq<StoredToken>
    var importModalOpen: bool
    var tokenAddress: string
    var adminPublicKey: string
    var adminPrivateKey: string

    /** Storage holds exactly the in-memory list. */
    ghost predicate Synced()
      reads this
    {
      stored == tokens
    }

    /** Mounting the page loads the stored list (none stored: an empty one) and writes it back. */
    constructor (storedTokens: Option<seq<StoredToken>>)
      ensures Synced() && tokens == storedTokens.GetOr([])
      ensures !importModalOpen && tokenAddress == "" && adminPublicKey == "" && adminPrivateKey == ""
    {
      tokens := storedTokens.GetOr([]);
      stored := tokens;
      importModalOpen := false;
      tokenAddress, adminPublicKey, adminPrivateKey := "", "", "";
    }

    /** The form's input fields. */
    method EditImportForm(address: string, publicKey: string, privateKey: string)
      modifies this`tokenAddress, this`adminPublicKey, this`adminPrivateKey, this`importModalOpen
      ensures importModalOpen
      ensures tokenAddress == address && adminPublicKey == publicKey && adminPrivateKey == privateKey
    {
      importModalOpen := true;
      tokenAddress, adminPublicKey, adminPrivateKey := address, publicKey, privateKey;
    }

    /**
     * `handleImportToken`: appends one record built from the form, keeps
     * storage in step, closes the form and clears its fields. `id` stands for
     * the current time in milliseconds, which need not be unique.
     */
    method ImportToken(id: string)
      requires Synced()
      modifies this
      ensures Synced()
      ensures tokens == old(tokens) + [ImportedRecord(id, old(tokenAddress), old(adminPublicKey), old(adminPrivateKey))]
      ensures !importModalOpen && tokenAddress == "" && adminPublicKey == "" && adminPrivateKey == ""
    {
      var newToken := ImportedRecord(id, tokenAddress, adminPublicKey, adminPrivateKey);
      tokens := tokens + [newToken];
      stored := tokens;
      importModalOpen := false;
      tokenAddress, adminPublicKey, adminPrivateKey := "", "", "";
    }

    /**
     * `removeToken`: once confirmed, keeps exactly the records whose id differs,
     * in their order, and writes the result to storage; unconfirmed, nothing changes.
     */
    method RemoveToken(id: string, confirmed: bool)
      requires Synced()
      modifies this`tokens, this`stored
      ensures Synced()
      ensures confirmed ==> tokens == RemoveById(old(tokens), id)
      ensures !confirmed ==> tokens == old(tokens)
    {
      if confirmed {
        var updatedTokens := RemoveById(tokens, id);
        tokens := updatedTokens;
        stored := updatedTokens;
      }
    }
  }
}
