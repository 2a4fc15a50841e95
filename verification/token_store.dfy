/**
 * The token records kept under the `tokens` key of the browser's storage, and
 * the list operations the pages perform on them: appending a record, removing
 * records by id, finding the first record with an address, and reading its
 * admin private key.
 */
module TokenStore {
  import opened Wrappers

  datatype Status = Launched | Pending

  /**
   * A stored record. The pages write `id`, `address`, the two optional admin
   * keys and `status`; the token page also reads the display fields `name`,
   * `symbol`, `circulating`, `decimals`, `adminContract` and `tokenId` when a
   * record has them, though no page writes them.
   */
  datatype StoredToken = StoredToken(
    id: string,
    address: string,
    adminPublicKey: Option<string>,
    adminPrivateKey: Option<string>,
    status: Status,
    name: Option<string>,
    symbol: Option<string>,
    circulating: Option<string>,
    decimals: Option<string>,
    adminContract: Option<string>,
    tokenId: Option<string>)

  /** `s || undefined`: an empty input is stored as absent. */
  function OptionalText(s: string): (r: Option<string>)
    ensures r.None? <==> s == ""
    ensures r.Some? ==> r.value == s
  {
    if s == "" then None else Some(s)
  }

  /** An optional stored text that is truthy: present and non-empty. */
  predicate Given(field: Option<string>) {
    field.Some? && field.value != ""
  }

  /** A launched record as the pages create it, without display fields. */
  function NewRecord(id: string, address: string, adminPublicKey: Option<string>, adminPrivateKey: Option<string>): (t: StoredToken)
    ensures t.id == id && t.address == address && t.status == Launched
    ensures t.adminPublicKey == adminPublicKey && t.adminPrivateKey == adminPrivateKey
    ensures !Given(t.name) && !Given(t.symbol) && !Given(t.circulating)
    ensures !Given(t.decimals) && !Given(t.adminContract) && !Given(t.tokenId)
  {
    StoredToken(id, address, adminPublicKey, adminPrivateKey, Launched, None, None, None, None, None, None)
  }

  /** `tokens.filter(token => token.id !== id)`. */
  function RemoveById(tokens: seq<StoredToken>, id: string): (r: seq<StoredToken>)
    ensures |r| <= |tokens|
    ensures forall t :: t in r <==> t in tokens && t.id != id
  {
    if tokens == [] then []
    else if tokens[0].id != id then [tokens[0]] + RemoveById(tokens[1..], id)
    else RemoveById(tokens[1..], id)
  }

  /** Filtering distributes over concatenation, so the kept records stay in their order. */
  lemma {:induction false} RemoveAppend(a: seq<StoredToken>, b: seq<StoredToken>, id: string)
    ensures RemoveById(a + b, id) == RemoveById(a, id) + RemoveById(b, id)
  {
    if a == [] {
      assert a + b == b;
    } else {
      assert (a + b)[1..] == a[1..] + b;
      RemoveAppend(a[1..], b, id);
    }
  }

  /** Removing an id no record has leaves the list as it was. */
  lemma {:induction false} RemoveAbsent(tokens: seq<StoredToken>, id: string)
    requires forall i :: 0 <= i < |tokens| ==> tokens[i].id != id
    ensures RemoveById(tokens, id) == tokens
  {
    if tokens != [] {
      RemoveAbsent(tokens[1..], id);
    }
  }

  /** Removing the same id twice is removing it once. */
  lemma RemoveIdempotent(tokens: seq<StoredToken>, id: string)
    ensures RemoveById(RemoveById(tokens, id), id) == RemoveById(tokens, id)
  {
  }

  /** The index of the first record with `address`, or `|tokens|` when there is none. */
  function FirstWithAddress(tokens: seq<StoredToken>, address: string): (i: nat)
    ensures i <= |tokens|
    ensures forall j :: 0 <= j < i ==> tokens[j].address != address
    ensures i < |tokens| ==> tokens[i].address == address
  {
    if tokens == [] then 0
    else if tokens[0].address == address then 0
    else 1 + FirstWithAddress(tokens[1..], address)
  }

  /** `tokens.find(t => t.address === address)`: the first record with that address. */
  function FindByAddress(tokens: seq<StoredToken>, address: string): (r: Option<StoredToken>)
    ensures r.None? <==> forall i :: 0 <= i < |tokens| ==> tokens[i].address != address
    ensures r.Some? ==> r.value.address == address && r.value in tokens
    ensures r.Some? ==> r.value == tokens[FirstWithAddress(tokens, address)]
  {
    var i := FirstWithAddress(tokens, address);
    if i < |tokens| then Some(tokens[i]) else None
  }

  /** Appending a record does not change which record an address finds, unless none had it before. */
  lemma {:induction false} FindAfterAppend(tokens: seq<StoredToken>, t: StoredToken, address: string)
    ensures FindByAddress(tokens + [t], address) ==
              if FindByAddress(tokens, address).Some? then FindByAddress(tokens, address)
              else if t.address == address then Some(t)
              else None
  {
    var s := tokens + [t];
    var i := FirstWithAddress(tokens, address);
    if i < |tokens| {
      assert s[i] == tokens[i];
      FirstIsUnique(s, address, i);
    } else if t.address == address {
      assert s[|tokens|] == t;
      FirstIsUnique(s, address, |tokens|);
    } else {
      assert forall j :: 0 <= j < |s| ==> s[j].address != address by {
        forall j | 0 <= j < |s| ensures s[j].address != address {
          if j < |tokens| { assert s[j] == tokens[j]; }
        }
      }
    }
  }

  /** The first index with an address is determined by the two properties that define it. */
  lemma FirstIsUnique(tokens: seq<StoredToken>, address: string, i: nat)
    requires i < |tokens| && tokens[i].address == address
    requires forall j :: 0 <= j < i ==> tokens[j].address != address
    ensures FirstWithAddress(tokens, address) == i
  {
  }

  /**
   * The admin private key the token page shows for `address`: the key of the
   * first record with that address when it is non-empty, and none otherwise.
   */
  function AdminKeyFor(tokens: seq<StoredToken>, address: string): (r: Option<string>)
    ensures r.Some? <==> FindByAddress(tokens, address).Some? && Given(FindByAddress(tokens, address).value.adminPrivateKey)
    ensures r.Some? ==> r == FindByAddress(tokens, address).value.adminPrivateKey
  {
    match FindByAddress(tokens, address)
    case Some(t) => if Given(t.adminPrivateKey) then t.adminPrivateKey else None
    case None => None
  }
}
