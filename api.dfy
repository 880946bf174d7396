/** What the three API routes share: the parsed request body, the library calls a route makes,
    the response it returns, and the messages common to send-token and mint-nft. */
module Api {
  import opened Js
  import opened Stellar

  /** `await request.json()`: the body it parsed, or what it threw. */
  datatype Parsed<T> = Body(value: T) | Unparsable(thrown: Thrown)

  /** A call a route makes into the issuance library, in the order made. */
  datatype LibraryCall =
    | ProbeCall(address: string, network: Network)                                   // checkAccountExists
    | SendCall(recipient: string, amount: string, network: Network)                  // sendMintTokens
    | CertificateCall(recipient: string, certificateId: string, metadata: Metadata, network: Network) // createNFTCertificate
    | BalanceCall(address: string, networkKey: string)                            // getAccountBalance

  /** `NextResponse.json(body, { status })`, with the library calls that led to it. */
  datatype Handled<B> = Handled(status: int, body: B, calls: seq<LibraryCall>)

  /** The destructuring default `network = 'testnet'`: it applies only when the key is absent. */
  function SelectedNetwork(field: Option<string>): string
  {
    match field
    case None => "testnet"
    case Some(s) => s
  }

  /** The network a request names, when it is one of the two configured keys. */
  function RequestedNetwork(field: Option<string>): Option<Network>
  {
    ParseNetwork(SelectedNetwork(field))
  }

  const INVALID_NETWORK := "Invalid network. Must be testnet or mainnet"
  const ACCOUNT_NOT_FOUND := "Recipient account not found. Please fund your account with XLM first."
  const NEEDS_MORE_XLM := "Recipient account needs more XLM for transaction fees."
  const INTERNAL_ERROR := "Internal server error"
}
