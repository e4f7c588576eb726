/** The read-only queries of src/query.rs: the viewing-key gate in front of the private
    queries, and the public projections of the stored state. */
module Query {
  import opened Types
  import opened Sums
  import opened Steps

  /** The queries that need a viewing key. Each carries the key presented with it. */
  datatype AuthQuery =
    | BalanceQuery(address: Address, key: string)
    | TransferHistoryQuery(address: Address, key: string, page: Option<U32>, pageSize: U32)
    | TransactionHistoryQuery(address: Address, key: string, page: Option<U32>, pageSize: U32)
    | AllowanceQuery(owner: Address, spender: Address, key: string)

  /** The answers of the modelled queries. A history answer carries only what selects the page;
      the page itself is read by code that is not part of this model. */
  datatype QueryAnswer =
    | BalanceAnswer(amount: U128)
    | TransferHistoryAnswer(account: Address, pageNumber: U32, size: U32)
    | TransactionHistoryAnswer(account: Address, pageNumber: U32, size: U32)
    | AllowanceAnswer(owner: Address, spender: Address, allowance: U128, expiration: Option<U64>)
    | ViewingKeyError
    | ExchangeRate(rate: U128, denom: string)
    | TokenInfo(name: string, symbol: string, decimals: U8, totalSupply: Option<U128>)

  /** check_viewing_key: whether a presented key matches a stored key hash. Hashing is not part
      of this model, so the gate takes the check as a parameter. */
  type KeyCheck = (string, seq<bv8>) -> bool

  /** The addresses a query may be authenticated as, in the order they are tried: the account
      of a balance or history query, the owner and then the spender of an allowance query. */
  function Candidates(q: AuthQuery): (r: seq<Address>)
    ensures 1 <= |r| <= 2
  {
    match q
    case BalanceQuery(address, _) => [address]
    case TransferHistoryQuery(address, _, _, _) => [address]
    case TransactionHistoryQuery(address, _, _, _) => [address]
    case AllowanceQuery(owner, spender, _) => [owner, spender]
  }

  /** An address authenticates when it has a stored key and the presented key matches it. */
  predicate Authenticates(address: Address, key: string, keys: map<Address, seq<bv8>>, check: KeyCheck) {
    address in keys && check(key, keys[address])
  }

  /** The first candidate, from position `from` on, that authenticates. An address without a
      stored key is passed over: the source runs a comparison against a zero key for it only to
      spend the same time, and discards the result. */
  function FirstAuthenticated(addresses: seq<Address>, key: string, keys: map<Address, seq<bv8>>,
                              check: KeyCheck, from: nat): (r: Option<nat>)
    requires from <= |addresses|
    ensures r.Some? ==>
              from <= r.value < |addresses| && Authenticates(addresses[r.value], key, keys, check) &&
              forall j :: from <= j < r.value ==> !Authenticates(addresses[j], key, keys, check)
    ensures r.None? <==> forall j :: from <= j < |addresses| ==> !Authenticates(addresses[j], key, keys, check)
    decreases |addresses| - from
  {
    if from == |addresses| then None
    else if addresses[from] !in keys then FirstAuthenticated(addresses, key, keys, check, from + 1)
    else if check(key, keys[addresses[from]]) then Some(from)
    else FirstAuthenticated(addresses, key, keys, check, from + 1)
  }

  function QueryBalance(s: Store, account: Address): (r: QueryAnswer)
    ensures r.BalanceAnswer? && r.amount == BalanceOf(s.balances, account)
  {
    BalanceAnswer(BalanceOf(s.balances, account))
  }

  /** The allowance as stored: a missing record reads as 0 with no expiration, and an expired
      record is reported with its stored amount. */
  function QueryAllowance(s: Store, owner: Address, spender: Address): (r: QueryAnswer)
    ensures r.AllowanceAnswer? && r.owner == owner && r.spender == spender
    ensures (owner, spender) in s.allowances ==>
              r.allowance == s.allowances[(owner, spender)].amount && r.expiration == s.allowances[(owner, spender)].expiration
    ensures (owner, spender) !in s.allowances ==> r.allowance == 0 && r.expiration == None
  {
    var stored := AllowanceOf(s.allowances, owner, spender);
    AllowanceAnswer(owner, spender, stored.amount, stored.expiration)
  }

  /** The answer an authenticated query gets. A history query without a page number asks for
      page 0. */
  function Answer(q: AuthQuery, s: Store): (r: QueryAnswer)
    ensures !r.ViewingKeyError?
    ensures q.BalanceQuery? ==> r == QueryBalance(s, q.address)
    ensures q.AllowanceQuery? ==> r == QueryAllowance(s, q.owner, q.spender)
    ensures q.TransferHistoryQuery? ==>
              r.TransferHistoryAnswer? && r.account == q.address && r.size == q.pageSize &&
              r.pageNumber == (if q.page.Some? then q.page.value else 0)
    ensures q.TransactionHistoryQuery? ==>
              r.TransactionHistoryAnswer? && r.account == q.address && r.size == q.pageSize &&
              r.pageNumber == (if q.page.Some? then q.page.value else 0)
  {
    match q
    case BalanceQuery(address, _) => QueryBalance(s, address)
    case TransferHistoryQuery(address, _, page, pageSize) =>
      TransferHistoryAnswer(address, if page.Some? then page.value else 0, pageSize)
    case TransactionHistoryQuery(address, _, page, pageSize) =>
      TransactionHistoryAnswer(address, if page.Some? then page.value else 0, pageSize)
    case AllowanceQuery(owner, spender, _) => QueryAllowance(s, owner, spender)
  }

  /** viewing_keys_queries: the query is answered when some candidate authenticates, and
      otherwise gets the one generic viewing-key error, which carries nothing, so a missing key
      and a wrong key cannot be told apart from the answer. */
  function ViewingKeysQueries(q: AuthQuery, keys: map<Address, seq<bv8>>, check: KeyCheck, s: Store): (r: QueryAnswer)
    ensures r.ViewingKeyError? <==> forall a :: a in Candidates(q) ==> !Authenticates(a, q.key, keys, check)
    ensures !r.ViewingKeyError? ==> r == Answer(q, s)
  {
    var addresses := Candidates(q);
    var first := FirstAuthenticated(addresses, q.key, keys, check, 0);
    if first.Some? then Answer(q, s) else ViewingKeyError
  }

  /** A query whose candidates have no stored key is refused, whatever the check would say. */
  lemma NoStoredKeyNeverAuthenticates(q: AuthQuery, keys: map<Address, seq<bv8>>, check: KeyCheck, s: Store)
    requires forall a :: a in Candidates(q) ==> a !in keys
    ensures ViewingKeysQueries(q, keys, check, s) == ViewingKeyError
  {
  }

  /** A reported balance never exceeds the total supply while the ledger invariant holds. */
  lemma BalanceAnswerWithinSupply(s: Store, account: Address)
    requires Conserved(s)
    ensures QueryBalance(s, account).amount <= s.totalSupply
  {
    BalanceAtMostSum(s.balances, account);
  }

  // ---------------------------------------------------------------- exchange rate

  function Pow10(n: nat): (r: nat)
    ensures r >= 1
  {
    if n == 0 then 1 else 10 * Pow10(n - 1)
  }

  lemma {:induction false} Pow10Add(a: nat, b: nat)
    ensures Pow10(a + b) == Pow10(a) * Pow10(b)
  {
    if a > 0 {
      Pow10Add(a - 1, b);
    }
  }

  lemma Pow10Monotone(a: nat, b: nat)
    requires a <= b
    ensures Pow10(a) <= Pow10(b)
  {
    Pow10Add(a, b - a);
  }

  /** 10^38 is the largest power of ten below 2^128. */
  lemma Pow10FitsU128(n: nat)
    requires n <= 38
    ensures Pow10(n) <= MAX_U128
  {
    assert Pow10(2) == 100;
    assert Pow10(4) == 10_000 by {
      Pow10Add(2, 2);
    }
    assert Pow10(8) == 100_000_000 by {
      Pow10Add(4, 4);
    }
    assert Pow10(16) == 10_000_000_000_000_000 by {
      Pow10Add(8, 8);
    }
    assert Pow10(32) == 100_000_000_000_000_000_000_000_000_000_000 by {
      Pow10Add(16, 16);
    }
    assert Pow10(36) == 1_000_000_000_000_000_000_000_000_000_000_000_000 by {
      Pow10Add(32, 4);
    }
    assert Pow10(38) == 100_000_000_000_000_000_000_000_000_000_000_000_000 by {
      Pow10Add(36, 2);
    }
    Pow10Monotone(n, 38);
  }

  /** query_exchange_rate: with deposit or redeem enabled, how many of the reserve's 6-decimal
      units one token unit is worth (denominated "SCRT"), or for a token with fewer decimals how
      many token units one reserve unit is worth (denominated by the token's symbol); otherwise
      rate 0 with an empty denomination. A token with more than 44 decimals would overflow the
      u128 power. */
  function QueryExchangeRate(c: Constants): (r: QueryAnswer)
    requires c.decimals <= 44
    ensures r.ExchangeRate?
    ensures !(c.depositEnabled || c.redeemEnabled) ==> r.rate == 0 && r.denom == ""
    ensures c.depositEnabled || c.redeemEnabled ==>
              r.rate >= 1 &&
              (c.decimals >= 6 ==> r.denom == "SCRT" && r.rate * Pow10(6) == Pow10(c.decimals)) &&
              (c.decimals < 6 ==> r.denom == c.symbol && r.rate * Pow10(c.decimals) == Pow10(6))
  {
    if c.depositEnabled || c.redeemEnabled then
      if c.decimals >= 6 then
        Pow10FitsU128(c.decimals - 6);
        Pow10Add(c.decimals - 6, 6);
        ExchangeRate(Pow10(c.decimals - 6), "SCRT")
      else
        Pow10FitsU128(6 - c.decimals);
        Pow10Add(6 - c.decimals, c.decimals);
        ExchangeRate(Pow10(6 - c.decimals), c.symbol)
    else
      ExchangeRate(0, "")
  }

  /** query_token_info: the total supply is disclosed exactly when it is configured public. */
  function QueryTokenInfo(c: Constants, totalSupply: U128): (r: QueryAnswer)
    ensures r.TokenInfo? && r.name == c.name && r.symbol == c.symbol && r.decimals == c.decimals
    ensures r.totalSupply.Some? <==> c.totalSupplyIsPublic
    ensures r.totalSupply.Some? ==> r.totalSupply.value == totalSupply
  {
    TokenInfo(c.name, c.symbol, c.decimals, if c.totalSupplyIsPublic then Some(totalSupply) else None)
  }
}
