/**
 * The token page: the network name it restores from storage, the token
 * details it shows for the address in the URL, the admin private key it finds
 * for that token, and the details fetched from the worker.
 */
module TokenPage {
  import opened Wrappers
  import opened JsValues
  import opened Ascii
  import opened TokenStore
  import ContractWorker
  import WorkerClient

  /** A network name whose first character is upper case and whose other characters are lower case. */
  ghost predicate IsNormalised(s: string) {
    && s != ""
    && Upper(s[0]) == s[0]
    && forall i :: 1 <= i < |s| ==> Lower(s[i]) == s[i]
  }

  /**
   * The initial network: a stored, non-empty name with its first character
   * upper-cased and the rest lower-cased; "Devnet" when nothing usable is stored.
   */
  function NormaliseNetwork(stored: Option<string>): (r: string)
    ensures IsNormalised(r)
    ensures stored.None? || stored == Some("") ==> r == "Devnet"
    ensures stored.Some? && stored.value != "" ==> LowerStr(r) == LowerStr(stored.value)
  {
    match stored
    case Some(s) =>
      if s == "" then "Devnet"
      else
        var r := [Upper(s[0])] + LowerStr(s[1..]);
        UpperOfLower(s[0]);
        assert LowerStr(r) == LowerStr(s) by {
          forall i | 0 <= i < |s| ensures LowerStr(r)[i] == LowerStr(s)[i] {
            if i > 0 { UpperOfLower(s[i]); }
          }
        }
        r
    case None => "Devnet"
  }

  /** Two normalised names that differ only in case are the same name. */
  lemma NormalisedUnique(a: string, b: string)
    requires IsNormalised(a) && IsNormalised(b) && LowerStr(a) == LowerStr(b)
    ensures a == b
  {
    UpperOfLower(a[0]);
    UpperOfLower(b[0]);
    assert Lower(a[0]) == LowerStr(a)[0] == LowerStr(b)[0] == Lower(b[0]);
  }

  /** Normalising a normalised name returns it unchanged; so normalising twice is normalising once. */
  lemma NormaliseFixesNormalised(s: string)
    requires IsNormalised(s)
    ensures NormaliseNetwork(Some(s)) == s
  {
  }

  lemma NormaliseIdempotent(stored: Option<string>)
    ensures NormaliseNetwork(Some(NormaliseNetwork(stored))) == NormaliseNetwork(stored)
  {
  }

  /**
   * The page's `setActiveInstance` request for the restored network (the
   * object `{network}` the client sends) is one the worker accepts exactly
   * when nothing usable is stored, or the stored name is "devnet" or
   * "mainnet" in any mix of case.
   */
  lemma RestoredNetworkIsAccepted(stored: Option<string>)
    ensures var args := WorkerClient.ArgsOf(WorkerClient.ClientCall.SetActiveInstance(Some(NormaliseNetwork(stored))));
            ContractWorker.ActiveInstanceUrl(args).Ok? <==>
              stored.None? || stored == Some("") || LowerStr(stored.value) in {"devnet", "mainnet"}
  {
    var r := NormaliseNetwork(stored);
    var args := WorkerClient.ArgsOf(WorkerClient.ClientCall.SetActiveInstance(Some(r)));
    assert Field(args, "network") == Str(r);
    assert ContractWorker.ActiveInstanceUrl(args).Ok? <==> r == "Devnet" || r == "Mainnet";
    if stored.Some? && stored.value != "" {
      var s := stored.value;
      assert LowerStr(r) == LowerStr(s);
      KnownNames();
      if LowerStr(s) == "devnet" {
        NormalisedUnique(r, "Devnet");
      } else if LowerStr(s) == "mainnet" {
        NormalisedUnique(r, "Mainnet");
      } else {
        assert r != "Devnet" && r != "Mainnet";
      }
    }
  }

  /** The two network names are normalised, and lower-case to "devnet" and "mainnet". */
  lemma KnownNames()
    ensures IsNormalised("Devnet") && LowerStr("Devnet") == "devnet"
    ensures IsNormalised("Mainnet") && LowerStr("Mainnet") == "mainnet"
  {
  }

  /** The details the page shows; absent fields are `undefined`. */
  datatype TokenDetails = TokenDetails(
    name: Option<string>,
    symbol: Option<string>,
    address: Option<string>,
    circulating: Option<string>,
    decimals: Option<string>,
    adminContract: Option<string>,
    tokenId: Option<string>)

  /** `field || fallback` on an optional stored text. */
  function TextOr(field: Option<string>, fallback: string): string {
    if Given(field) then field.value else fallback
  }

  /**
   * The details shown for a stored record: each display field the record
   * gives is kept and the others defaulted, "Unknown" for the name, "UNKNOWN"
   * for the symbol and "N/A" for the rest; the address is copied unchanged.
   */
  function Details(t: StoredToken): (d: TokenDetails)
    ensures d.address == Some(t.address)
    ensures d.name == (if Given(t.name) then t.name else Some("Unknown"))
    ensures d.symbol == (if Given(t.symbol) then t.symbol else Some("UNKNOWN"))
    ensures d.circulating == (if Given(t.circulating) then t.circulating else Some("N/A"))
    ensures d.decimals == (if Given(t.decimals) then t.decimals else Some("N/A"))
    ensures d.adminContract == (if Given(t.adminContract) then t.adminContract else Some("N/A"))
    ensures d.tokenId == (if Given(t.tokenId) then t.tokenId else Some("N/A"))
  {
    TokenDetails(
      Some(TextOr(t.name, "Unknown")),
      Some(TextOr(t.symbol, "UNKNOWN")),
      Some(t.address),
      Some(TextOr(t.circulating, "N/A")),
      Some(TextOr(t.decimals, "N/A")),
      Some(TextOr(t.adminContract, "N/A")),
      Some(TextOr(t.tokenId, "N/A")))
  }

  /** A record the pages created, which has no display fields, shows all the defaults. */
  lemma DetailsDefaults(id: string, address: string, adminPublicKey: Option<string>, adminPrivateKey: Option<string>)
    ensures Details(NewRecord(id, address, adminPublicKey, adminPrivateKey))
              == TokenDetails(Some("Unknown"), Some("UNKNOWN"), Some(address), Some("N/A"), Some("N/A"), Some("N/A"), Some("N/A"))
  {
  }

  /**
   * `{...prevToken!, circulating, decimals, adminContract, tokenId}`: the four
   * fetched fields replace the old ones and the rest are kept; spreading a
   * missing token contributes no fields.
   */
  function Merge(prev: Option<TokenDetails>, circulating: Option<string>, decimals: Option<string>,
                 adminContract: Option<string>, tokenId: Option<string>): (r: TokenDetails)
    ensures r.circulating == circulating && r.decimals == decimals
    ensures r.adminContract == adminContract && r.tokenId == tokenId
    ensures prev.Some? ==> r.name == prev.value.name && r.symbol == prev.value.symbol && r.address == prev.value.address
    ensures prev.None? ==> r.name == None && r.symbol == None && r.address == None
  {
    match prev
    case Some(p) => p.(circulating := circulating, decimals := decimals, adminContract := adminContract, tokenId := tokenId)
    case None => TokenDetails(None, None, None, circulating, decimals, adminContract, tokenId)
  }

  class TokenPageState {
    var network: string
    var token: Option<TokenDetails>
    var adminPrivateKey: Option<string>

    constructor (storedNetwork: Option<string>)
      ensures network == NormaliseNetwork(storedNetwork) && token == None && adminPrivateKey == None
    {
      network := NormaliseNetwork(storedNetwork);
      token := None;
      adminPrivateKey := None;
    }

    /**
     * The effect on the URL's address: with a non-empty address and a stored
     * list, shows the details of the first record with that address; when no
     * record matches, or nothing is stored, the shown token stays as it was.
     */
    method LoadToken(address: Option<string>, storedTokens: Option<seq<StoredToken>>)
      modifies this`token
      ensures (address.Some? && address.value != "" && storedTokens.Some?
               && FindByAddress(storedTokens.value, address.value).Some?) ==>
                token == Some(Details(FindByAddress(storedTokens.value, address.value).value))
      ensures !(address.Some? && address.value != "" && storedTokens.Some?
               && FindByAddress(storedTokens.value, address.value).Some?) ==>
                token == old(token)
    {
      if address.Some? && address.value != "" && storedTokens.Some? {
        var found := FindByAddress(storedTokens.value, address.value);
        if found.Some? {
          token := Some(Details(found.value));
        }
      }
    }

    /**
     * The effect on the shown token: when it has a non-empty address and a list
     * is stored, the admin private key becomes that of the first record with the
     * address when it is non-empty, and absent otherwise.
     */
    method LoadAdminKey(storedTokens: Option<seq<StoredToken>>)
      modifies this`adminPrivateKey
      ensures (token.Some? && token.value.address.Some? && token.value.address.value != "" && storedTokens.Some?) ==>
                adminPrivateKey == AdminKeyFor(storedTokens.value, token.value.address.value)
      ensures !(token.Some? && token.value.address.Some? && token.value.address.value != "" && storedTokens.Some?) ==>
                adminPrivateKey == old(adminPrivateKey)
    {
      if token.Some? && token.value.address.Some? && token.value.address.value != "" && storedTokens.Some? {
        adminPrivateKey := AdminKeyFor(storedTokens.value, token.value.address.value);
      }
    }

    /** Folding in the details fetched from the worker. */
    method MergeFetched(circulating: Option<string>, decimals: Option<string>, adminContract: Option<string>, tokenId: Option<string>)
      modifies this`token
      ensures token == Some(Merge(old(token), circulating, decimals, adminContract, tokenId))
    {
      token := Some(Merge(token, circulating, decimals, adminContract, tokenId));
    }
  }
}
