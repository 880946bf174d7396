/** The issuance library: per-network configuration, the balance reader, the account probe,
    the reward issuer, the certificate issuer and the trustline helpers.

    The Stellar SDK and the Horizon server are an oracle (`Sdk`): loading an account yields its
    balance entries or a thrown value; constructing an asset or building a transaction may
    throw; submitting yields a hash or a thrown value. The issuers report, besides their result,
    the calls they made on the ledger, in order. */
module Stellar {
  import opened Js

  // ---------------------------------------------------------------------------
  // Configuration (STELLAR_CONFIG, MINT_TOKEN)

  datatype Network = Testnet | Mainnet

  /** The SDK's network passphrase constants, kept abstract. */
  datatype Passphrase = TestnetPassphrase | PublicPassphrase

  datatype NetworkConfig = NetworkConfig(horizonUrl: string, passphrase: Passphrase, name: string)

  function StellarConfig(n: Network): NetworkConfig
  {
    match n
    case Testnet => NetworkConfig("https://horizon-testnet.stellar.org", TestnetPassphrase, "testnet")
    case Mainnet => NetworkConfig("https://horizon.stellar.org", PublicPassphrase, "mainnet")
  }

  function NetworkName(n: Network): string
  {
    StellarConfig(n).name
  }

  /** Indexing `STELLAR_CONFIG` with a string: only the two table keys find an entry. */
  function ParseNetwork(s: string): (r: Option<Network>)
    ensures r.Some? <==> s == "testnet" || s == "mainnet"
    ensures r.Some? ==> NetworkName(r.value) == s
  {
    if s == "testnet" then Some(Testnet)
    else if s == "mainnet" then Some(Mainnet)
    else None
  }

  /** The two networks have different names, and each name leads back to its network. */
  lemma NetworkNameRoundTrip(n: Network, m: Network)
    ensures ParseNetwork(NetworkName(n)) == Some(n)
    ensures NetworkName(n) == NetworkName(m) ==> n == m
  {
  }

  datatype Asset = Native | Credit(code: string, issuer: string)

  const MINT_CODE := "MINT"
  const MINT_ISSUER := "GAOG7VY7G4KCQKUIGX7HBWKL35CQHKP7Q4BBL6Z2ZAOJ2ASGSTJQMVSS"

  datatype MintToken = MintToken(code: string, issuer: string, asset: Asset)

  /** The reward asset of a network: code `MINT`, the same issuer on both networks. */
  function MintTokenFor(n: Network): (t: MintToken)
    ensures t.code == MINT_CODE && t.issuer == MINT_ISSUER
    ensures t.asset == Credit(t.code, t.issuer)
    ensures |t.issuer| == 56
  {
    MintToken(MINT_CODE, MINT_ISSUER, Credit(MINT_CODE, MINT_ISSUER))
  }

  // ---------------------------------------------------------------------------
  // The ledger oracle

  /** One entry of `account.balances` as Horizon reports it. */
  datatype BalanceEntry = BalanceEntry(assetType: string, balance: string, assetCode: Option<string>, assetIssuer: Option<string>)

  datatype LoadResult = Loaded(balances: seq<BalanceEntry>) | LoadFailed(thrown: Thrown)

  datatype SubmitResult = Accepted(hash: string) | Rejected(thrown: Thrown)

  datatype Operation =
    | Payment(destination: string, asset: Asset, amount: string)
      /** `setOptions` with only a home domain: it acts on the transaction's source account. */
    | SetOptions(homeDomain: string)

  /** A built transaction: source account, network, operations in order, text memo, timeout in seconds. */
  datatype Transaction = Transaction(source: string, passphrase: Passphrase, operations: seq<Operation>, memo: string, timeoutSeconds: nat)

  /** A transaction with the public keys of the keypairs that signed it, in signing order. */
  datatype Envelope = Envelope(tx: Transaction, signatures: seq<string>)

  datatype Sdk = Sdk(
    serverKey: string,                                   // SERVER_KEYPAIR.publicKey()
    loadAccount: (Network, string) -> LoadResult,        // server.loadAccount(address)
    assetError: (string, string) -> Option<Thrown>,      // what `new Asset(code, issuer)` throws, if anything
    buildError: Transaction -> Option<Thrown>,           // what the TransactionBuilder throws, if anything
    submitTransaction: (Network, Envelope) -> SubmitResult)

  /** A call an issuer makes on the ledger. */
  datatype LedgerCall = LoadCall(address: string) | SubmitCall(envelope: Envelope)

  /** A function from a string to the number `parseFloat` reads from it; `None` is NaN. */
  type Parser = string -> Option<real>

  // ---------------------------------------------------------------------------
  // getAccountBalance

  /** Which holding a balance scan picks out. */
  datatype Holding = NativeHolding | MintHolding(network: Network)

  predicate Matches(h: Holding, b: BalanceEntry)
  {
    match h
    case NativeHolding => b.assetType == "native"
    case MintHolding(n) =>
      b.assetType == "credit_alphanum4" && b.assetCode == Some(MintTokenFor(n).code)
      && b.assetIssuer == Some(MintTokenFor(n).issuer)
  }

  /** The balance of the last entry matching `h`, or "0" when none does. */
  function LastBalance(entries: seq<BalanceEntry>, h: Holding): string
  {
    if entries == [] then "0"
    else if Matches(h, entries[|entries| - 1]) then entries[|entries| - 1].balance
    else LastBalance(entries[..|entries| - 1], h)
  }

  /** With no matching entry the scan leaves the initial "0". */
  lemma {:induction false} LastBalanceNone(entries: seq<BalanceEntry>, h: Holding)
    requires forall i :: 0 <= i < |entries| ==> !Matches(h, entries[i])
    ensures LastBalance(entries, h) == "0"
  {
    if entries != [] {
      LastBalanceNone(entries[..|entries| - 1], h);
    }
  }

  /** When several entries match, the last one wins. */
  lemma {:induction false} LastBalanceIsLastMatch(entries: seq<BalanceEntry>, h: Holding, i: nat)
    requires i < |entries| && Matches(h, entries[i])
    requires forall j :: i < j < |entries| ==> !Matches(h, entries[j])
    ensures LastBalance(entries, h) == entries[i].balance
  {
    if i < |entries| - 1 {
      LastBalanceIsLastMatch(entries[..|entries| - 1], h, i);
    }
  }

  /** An entry that does not match, such as `MINT` under another issuer, can be dropped without changing the scan. */
  lemma {:induction false} LastBalanceIgnores(before: seq<BalanceEntry>, e: BalanceEntry, after: seq<BalanceEntry>, h: Holding)
    requires !Matches(h, e)
    ensures LastBalance(before + [e] + after, h) == LastBalance(before + after, h)
  {
    if after == [] {
      assert before + [e] + after == before + [e];
      assert (before + [e])[..|before|] == before;
      assert before + after == before;
    } else {
      var last := after[|after| - 1];
      var init := after[..|after| - 1];
      assert before + [e] + after == (before + [e] + init) + [last];
      assert before + after == (before + init) + [last];
      assert ((before + [e] + init) + [last])[..|before + [e] + init|] == before + [e] + init;
      assert ((before + init) + [last])[..|before + init|] == before + init;
      LastBalanceIgnores(before, e, init, h);
    }
  }

  /** A `MINT` entry under an issuer other than the configured one never counts as the reward asset. */
  lemma ForeignMintIgnored(before: seq<BalanceEntry>, balance: string, issuer: string, after: seq<BalanceEntry>, n: Network)
    requires issuer != MintTokenFor(n).issuer
    ensures LastBalance(before + [BalanceEntry("credit_alphanum4", balance, Some("MINT"), Some(issuer))] + after, MintHolding(n))
         == LastBalance(before + after, MintHolding(n))
  {
    LastBalanceIgnores(before, BalanceEntry("credit_alphanum4", balance, Some("MINT"), Some(issuer)), after, MintHolding(n));
  }

  datatype BalanceReport = BalanceReport(xlm: string, mint: string, error: Option<string>)

  /** V8's message when `STELLAR_CONFIG[network]` finds no entry and `.server` is read from it. */
  const NO_CONFIG_MESSAGE := "Cannot read properties of undefined (reading 'server')"

  /** `getAccountBalance`: never throws; a failure gives zero balances and an error string. */
  method GetAccountBalance(sdk: Sdk, address: string, network: string) returns (r: BalanceReport)
    ensures r.error.Some? ==> r.xlm == "0" && r.mint == "0"
    ensures ParseNetwork(network).None? ==> r == BalanceReport("0", "0", Some(NO_CONFIG_MESSAGE))
    ensures ParseNetwork(network).Some? ==>
      match sdk.loadAccount(ParseNetwork(network).value, address)
      case LoadFailed(t) => r == BalanceReport("0", "0", Some(MessageOr(t, "Balance fetch failed")))
      case Loaded(bs) =>
        r == BalanceReport(LastBalance(bs, NativeHolding), LastBalance(bs, MintHolding(ParseNetwork(network).value)), None)
  {
    var config := ParseNetwork(network);
    if config.None? {
      return BalanceReport("0", "0", Some(NO_CONFIG_MESSAGE));
    }
    var n := config.value;
    var account := sdk.loadAccount(n, address);
    if account.LoadFailed? {
      return BalanceReport("0", "0", Some(MessageOr(account.thrown, "Balance fetch failed")));
    }
    var balances := account.balances;
    var xlmBalance, mintBalance := "0", "0";
    var i := 0;
    while i < |balances|
      invariant 0 <= i <= |balances|
      invariant xlmBalance == LastBalance(balances[..i], NativeHolding)
      invariant mintBalance == LastBalance(balances[..i], MintHolding(n))
    {
      var b := balances[i];
      if b.assetType == "native" {
        xlmBalance := b.balance;
      } else if b.assetType == "credit_alphanum4" && b.assetCode == Some(MINT_CODE) && b.assetIssuer == Some(MintTokenFor(n).issuer) {
        mintBalance := b.balance;
      }
      assert balances[..i + 1][..i] == balances[..i];
      i := i + 1;
    }
    assert balances[..|balances|] == balances;
    return BalanceReport(xlmBalance, mintBalance, None);
  }

  // ---------------------------------------------------------------------------
  // checkAccountExists

  datatype ProbeResult = ProbeResult(accountExists: bool, funded: bool, error: Option<string>)

  /** `balances.find(b => b.asset_type === 'native')`, as an index. */
  function FindNative(entries: seq<BalanceEntry>): (r: Option<nat>)
    ensures r.Some? ==> r.value < |entries| && Matches(NativeHolding, entries[r.value])
    ensures r.Some? ==> forall j :: 0 <= j < r.value ==> !Matches(NativeHolding, entries[j])
    ensures r.None? ==> forall j :: 0 <= j < |entries| ==> !Matches(NativeHolding, entries[j])
  {
    if entries == [] then None
    else if entries[0].assetType == "native" then Some(0)
    else match FindNative(entries[1..])
      case None => None
      case Some(k) => Some(k + 1)
  }

  /** The failure Horizon gives for an address with no account. */
  predicate NotFoundSignal(t: Thrown)
  {
    t.ErrorObject? && Includes(t.message, "Account not found")
  }

  /** Minimum native balance for an account to count as funded. */
  const FUNDING_THRESHOLD: real := 1.0

  function CheckAccountExists(sdk: Sdk, address: string, network: Network, parse: Parser): (p: ProbeResult)
    // a loaded account exists, and no error is reported
    ensures sdk.loadAccount(network, address).Loaded? ==> p.accountExists && p.error.None?
    // funded iff the first native entry's balance reads as at least 1
    ensures sdk.loadAccount(network, address).Loaded? ==>
      var bs := sdk.loadAccount(network, address).balances;
      (p.funded <==> exists i :: 0 <= i < |bs| && Matches(NativeHolding, bs[i])
                                 && (forall j :: 0 <= j < i ==> !Matches(NativeHolding, bs[j]))
                                 && parse(bs[i].balance).Some? && parse(bs[i].balance).value >= FUNDING_THRESHOLD)
    // any failure means neither exists nor funded
    ensures sdk.loadAccount(network, address).LoadFailed? ==> !p.accountExists && !p.funded
    // "Account not found" is an expected answer, any other failure comes back as an error
    ensures sdk.loadAccount(network, address).LoadFailed? ==>
      var t := sdk.loadAccount(network, address).thrown;
      (p.error.None? <==> NotFoundSignal(t)) && (!NotFoundSignal(t) ==> p.error == Some(MessageOr(t, "Account check failed")))
  {
    match sdk.loadAccount(network, address)
    case Loaded(bs) =>
      var native := FindNative(bs);
      var isFunded := native.Some? && parse(bs[native.value].balance).Some? && parse(bs[native.value].balance).value >= FUNDING_THRESHOLD;
      ProbeResult(true, isFunded, None)
    case LoadFailed(t) =>
      if NotFoundSignal(t) then ProbeResult(false, false, None)
      else ProbeResult(false, false, Some(MessageOr(t, "Account check failed")))
  }

  /** A Horizon message that mentions "Account not found" anywhere is an answer, not an error. */
  lemma NotFoundAnywhereInMessage(sdk: Sdk, address: string, network: Network, parse: Parser, before: string, after: string)
    requires sdk.loadAccount(network, address) == LoadFailed(ErrorObject(before + "Account not found" + after))
    ensures CheckAccountExists(sdk, address, network, parse) == ProbeResult(false, false, None)
  {
    IncludesInfix(before, "Account not found", after);
  }

  /** The not-found signal is exactly an Error whose message holds "Account not found" at some position. */
  lemma NotFoundSignalMeaning(t: Thrown)
    ensures NotFoundSignal(t) <==> t.ErrorObject? && exists i :: OccursAt(t.message, "Account not found", i)
  {
    var key := "Account not found";
    if NotFoundSignal(t) {
      IncludesHasInfix(t.message, key);
    }
    if t.ErrorObject? && exists i :: OccursAt(t.message, key, i) {
      var i :| OccursAt(t.message, key, i);
      var m := t.message;
      assert m == m[..i] + key + m[i + |key|..];
      IncludesInfix(m[..i], key, m[i + |key|..]);
    }
  }

  // ---------------------------------------------------------------------------
  // Issuance results

  datatype IssuanceResult = IssuanceResult(success: bool, transactionHash: Option<string>, assetCode: Option<string>, error: Option<string>)

  function Failure(message: string): IssuanceResult
  {
    IssuanceResult(false, None, None, Some(message))
  }

  const RECIPIENT_NOT_FOUND := "Recipient account not found. Please fund the account with XLM first."
  const REWARD_MEMO := "Mintelligence Quiz Reward"
  const TIMEOUT_SECONDS: nat := 30

  /** Every call of a trace but the last is a load: at most one transaction is submitted, and nothing follows it. */
  predicate SubmitsAtMostOnce(calls: seq<LedgerCall>)
  {
    forall i :: 0 <= i < |calls| - 1 ==> calls[i].LoadCall?
  }

  // ---------------------------------------------------------------------------
  // sendMintTokens

  method SendMintTokens(sdk: Sdk, recipient: string, amount: string, network: Network)
    returns (r: IssuanceResult, calls: seq<LedgerCall>)
    // the issuer's own account is loaded first; at most one transaction is submitted
    ensures 1 <= |calls| && calls[0] == LoadCall(sdk.serverKey) && SubmitsAtMostOnce(calls)
    ensures r.success ==> r.transactionHash.Some? && r.error.None?
    ensures !r.success ==> r.transactionHash.None? && r.error.Some?
    ensures r.assetCode.None?
    ensures sdk.loadAccount(network, sdk.serverKey).LoadFailed? ==>
      calls == [LoadCall(sdk.serverKey)]
      && r == Failure(MessageOr(sdk.loadAccount(network, sdk.serverKey).thrown, "Token transfer failed"))
    ensures sdk.loadAccount(network, sdk.serverKey).Loaded? && sdk.loadAccount(network, recipient).LoadFailed? ==>
      calls == [LoadCall(sdk.serverKey), LoadCall(recipient)] && r == Failure(RECIPIENT_NOT_FOUND)
    ensures sdk.loadAccount(network, sdk.serverKey).Loaded? && sdk.loadAccount(network, recipient).Loaded? ==>
      // one payment of `amount` MINT to the recipient, from the issuer's account, signed by it once
      var tx := Transaction(sdk.serverKey, StellarConfig(network).passphrase,
                            [Payment(recipient, MintTokenFor(network).asset, amount)], REWARD_MEMO, TIMEOUT_SECONDS);
      var envelope := Envelope(tx, [sdk.serverKey]);
      (sdk.buildError(tx).Some? ==>
         calls == [LoadCall(sdk.serverKey), LoadCall(recipient)]
         && r == Failure(MessageOr(sdk.buildError(tx).value, "Token transfer failed")))
      && (sdk.buildError(tx).None? ==>
         calls == [LoadCall(sdk.serverKey), LoadCall(recipient), SubmitCall(envelope)]
         && match sdk.submitTransaction(network, envelope)
            case Accepted(h) => r == IssuanceResult(true, Some(h), None, None)
            case Rejected(t) => r == Failure(MessageOr(t, "Token transfer failed")))
  {
    var passphrase := StellarConfig(network).passphrase;
    var mintAsset := MintTokenFor(network).asset;

    calls := [LoadCall(sdk.serverKey)];
    var serverAccount := sdk.loadAccount(network, sdk.serverKey);
    if serverAccount.LoadFailed? {
      r := Failure(MessageOr(serverAccount.thrown, "Token transfer failed"));
      return;
    }

    calls := calls + [LoadCall(recipient)];
    var recipientAccount := sdk.loadAccount(network, recipient);
    if recipientAccount.LoadFailed? {
      r := Failure(RECIPIENT_NOT_FOUND);
      return;
    }

    var transaction := Transaction(sdk.serverKey, passphrase, [Payment(recipient, mintAsset, amount)], REWARD_MEMO, TIMEOUT_SECONDS);
    var buildFailure := sdk.buildError(transaction);
    if buildFailure.Some? {
      r := Failure(MessageOr(buildFailure.value, "Token transfer failed"));
      return;
    }

    var signed := Envelope(transaction, [sdk.serverKey]);
    calls := calls + [SubmitCall(signed)];
    var result := sdk.submitTransaction(network, signed);
    match result
    case Accepted(h) =>
      r := IssuanceResult(true, Some(h), None, None);
    case Rejected(t) =>
      r := Failure(MessageOr(t, "Token transfer failed"));
  }

  // ---------------------------------------------------------------------------
  // createNFTCertificate

  const CERT_PREFIX := "CERT"
  const MAX_ASSET_CODE: nat := 12
  const HOME_DOMAIN := "mintelligence.app"

  function Min(a: int, b: int): int
  {
    if a <= b then a else b
  }

  /** `` `CERT${certificateId}`.substring(0, 12) `` */
  function CertAssetCode(certificateId: string): (code: string)
    ensures |code| == Min(MAX_ASSET_CODE, |CERT_PREFIX| + |certificateId|)
    ensures code[..4] == CERT_PREFIX
    ensures code[4..] == certificateId[..|code| - 4]
    ensures |certificateId| >= 8 ==> |code| == MAX_ASSET_CODE
    ensures |certificateId| <= 8 ==> code == CERT_PREFIX + certificateId
  {
    var full := CERT_PREFIX + certificateId;
    if |full| <= MAX_ASSET_CODE then full else full[..MAX_ASSET_CODE]
  }

  /** Only the first eight characters of an id reach its asset code: two ids that share
      them are issued under the same code. */
  lemma CertAssetCodeSharedPrefix(id1: string, id2: string)
    requires |id1| >= 8 && |id2| >= 8 && id1[..8] == id2[..8]
    ensures CertAssetCode(id1) == CertAssetCode(id2)
  {
  }

  /** Two millisecond timestamps in the same aligned 100-second window share their certificate code. */
  lemma CertAssetCodeCollision()
    ensures CertAssetCode("1718000000000") == CertAssetCode("1718000099999") == "CERT17180000"
  {
  }

  datatype Attribute = Attribute(traitType: string, value: string)
  datatype Metadata = Metadata(name: string, description: string, image: string, attributes: seq<Attribute>)

  /** `createNFTCertificate`. The `metadata` argument is accepted and not used. */
  method CreateNFTCertificate(sdk: Sdk, recipient: string, certificateId: string, metadata: Metadata, network: Network)
    returns (r: IssuanceResult, calls: seq<LedgerCall>)
    ensures SubmitsAtMostOnce(calls)
    ensures r.success ==> r.transactionHash.Some? && r.error.None? && r.assetCode == Some(CertAssetCode(certificateId))
    ensures !r.success ==> r.transactionHash.None? && r.assetCode.None? && r.error.Some?
    // the Asset constructor rejects the code before the ledger is touched
    ensures sdk.assetError(CertAssetCode(certificateId), sdk.serverKey).Some? ==>
      calls == [] && r == Failure(MessageOr(sdk.assetError(CertAssetCode(certificateId), sdk.serverKey).value, "NFT creation failed"))
    ensures sdk.assetError(CertAssetCode(certificateId), sdk.serverKey).None? ==>
      1 <= |calls| && calls[0] == LoadCall(sdk.serverKey)
    ensures sdk.assetError(CertAssetCode(certificateId), sdk.serverKey).None? && sdk.loadAccount(network, sdk.serverKey).LoadFailed? ==>
      calls == [LoadCall(sdk.serverKey)]
      && r == Failure(MessageOr(sdk.loadAccount(network, sdk.serverKey).thrown, "NFT creation failed"))
    ensures sdk.assetError(CertAssetCode(certificateId), sdk.serverKey).None? && sdk.loadAccount(network, sdk.serverKey).Loaded?
            && sdk.loadAccount(network, recipient).LoadFailed? ==>
      calls == [LoadCall(sdk.serverKey), LoadCall(recipient)] && r == Failure(RECIPIENT_NOT_FOUND)
    ensures sdk.assetError(CertAssetCode(certificateId), sdk.serverKey).None? && sdk.loadAccount(network, sdk.serverKey).Loaded?
            && sdk.loadAccount(network, recipient).Loaded? ==>
      // first one unit of the certificate asset to the recipient, then the issuer's own home domain
      var tx := Transaction(sdk.serverKey, StellarConfig(network).passphrase,
                            [Payment(recipient, Credit(CertAssetCode(certificateId), sdk.serverKey), "1"), SetOptions(HOME_DOMAIN)],
                            "NFT Certificate: " + certificateId, TIMEOUT_SECONDS);
      var envelope := Envelope(tx, [sdk.serverKey]);
      (sdk.buildError(tx).Some? ==>
         calls == [LoadCall(sdk.serverKey), LoadCall(recipient)]
         && r == Failure(MessageOr(sdk.buildError(tx).value, "NFT creation failed")))
      && (sdk.buildError(tx).None? ==>
         calls == [LoadCall(sdk.serverKey), LoadCall(recipient), SubmitCall(envelope)]
         && match sdk.submitTransaction(network, envelope)
            case Accepted(h) => r == IssuanceResult(true, Some(h), Some(CertAssetCode(certificateId)), None)
            case Rejected(t) => r == Failure(MessageOr(t, "NFT creation failed")))
  {
    var passphrase := StellarConfig(network).passphrase;
    calls := [];

    var assetCode := CertAssetCode(certificateId);
    var assetFailure := sdk.assetError(assetCode, sdk.serverKey);
    if assetFailure.Some? {
      r := Failure(MessageOr(assetFailure.value, "NFT creation failed"));
      return;
    }
    var nftAsset := Credit(assetCode, sdk.serverKey);

    calls := calls + [LoadCall(sdk.serverKey)];
    var serverAccount := sdk.loadAccount(network, sdk.serverKey);
    if serverAccount.LoadFailed? {
      r := Failure(MessageOr(serverAccount.thrown, "NFT creation failed"));
      return;
    }

    calls := calls + [LoadCall(recipient)];
    var recipientAccount := sdk.loadAccount(network, recipient);
    if recipientAccount.LoadFailed? {
      r := Failure(RECIPIENT_NOT_FOUND);
      return;
    }

    var transaction := Transaction(sdk.serverKey, passphrase,
                                   [Payment(recipient, nftAsset, "1"), SetOptions(HOME_DOMAIN)],
                                   "NFT Certificate: " + certificateId, TIMEOUT_SECONDS);
    var buildFailure := sdk.buildError(transaction);
    if buildFailure.Some? {
      r := Failure(MessageOr(buildFailure.value, "NFT creation failed"));
      return;
    }

    var signed := Envelope(transaction, [sdk.serverKey]);
    calls := calls + [SubmitCall(signed)];
    var result := sdk.submitTransaction(network, signed);
    match result
    case Accepted(h) =>
      r := IssuanceResult(true, Some(h), Some(assetCode), None);
    case Rejected(t) =>
      r := Failure(MessageOr(t, "NFT creation failed"));
  }

  // ---------------------------------------------------------------------------
  // createTrustline, getTrustlineInfo

  datatype TrustlineResult = TrustlineResult(success: bool, error: Option<string>)

  const TRUSTLINE_REFUSAL := "Trustline creation must be done from the frontend with user signature"

  /** The server cannot sign for the user, so it always refuses, whatever the address and network. */
  function CreateTrustline(userAddress: string, network: Network): (r: TrustlineResult)
    ensures !r.success && r.error == Some(TRUSTLINE_REFUSAL)
  {
    TrustlineResult(false, Some(TRUSTLINE_REFUSAL))
  }

  datatype TrustlineInfo = TrustlineInfo(asset: Asset, issuer: string, code: string, networkPassphrase: Passphrase)

  function GetTrustlineInfo(network: Network): (info: TrustlineInfo)
    ensures info.asset == Credit(info.code, info.issuer)
    ensures info.code == MINT_CODE && info.issuer == MintTokenFor(network).issuer
    ensures info.networkPassphrase == StellarConfig(network).passphrase
  {
    TrustlineInfo(MintTokenFor(network).asset, MintTokenFor(network).issuer, MintTokenFor(network).code, StellarConfig(network).passphrase)
  }

  /** A trustline made from `getTrustlineInfo` holds exactly the asset the balance reader counts as MINT. */
  lemma TrustlineIsCountedAsMint(network: Network, balance: string)
    ensures var info := GetTrustlineInfo(network);
      Matches(MintHolding(network), BalanceEntry("credit_alphanum4", balance, Some(info.code), Some(info.issuer)))
  {
  }
}
