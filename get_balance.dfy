/** `POST /api/get-balance`: two guards on the address, then the balance reader.
    `balances` is `getAccountBalance`; the network is passed on unvalidated. */
module GetBalanceRoute {
  import opened Js
  import opened Stellar
  import opened Api

  datatype GetBalanceBody = GetBalanceBody(address: Option<string>, network: Option<string>)

  datatype GetBalanceReply =
    | BalanceRejected(error: string)                                  // { error } with 400
    | BalanceUnavailable(error: string, xlm: string, mint: string)    // { error, xlm: '0', mint: '0' } with 200
    | BalanceFound(xlm: string, mint: string, address: string, network: string) // { success: true, ... }
    | BalanceFailed(error: string, details: string)                   // { error, details } with 500

  const ADDRESS_REQUIRED := "Address is required"
  const INVALID_ADDRESS := "Invalid Stellar address format"
  const FETCH_FAILED := "Failed to fetch balance"

  /** `address.startsWith('G') && address.length === 56` */
  predicate WellFormedAddress(a: string)
  {
    |a| == 56 && a[0] == 'G'
  }

  function GetBalancePost(req: Parsed<GetBalanceBody>, balances: (string, string) -> BalanceReport): (out: Handled<GetBalanceReply>)
    ensures req.Unparsable? ==> out == Handled(500, BalanceFailed(FETCH_FAILED, MessageOr(req.thrown, "Unknown error")), [])
    ensures req.Body? && !Truthy(req.value.address) ==> out == Handled(400, BalanceRejected(ADDRESS_REQUIRED), [])
    // a malformed address is refused before any lookup
    ensures req.Body? && Truthy(req.value.address) && !WellFormedAddress(req.value.address.value) ==>
      out == Handled(400, BalanceRejected(INVALID_ADDRESS), [])
    ensures out.calls != [] <==> req.Body? && Truthy(req.value.address) && WellFormedAddress(req.value.address.value)
    ensures req.Body? && Truthy(req.value.address) && WellFormedAddress(req.value.address.value) ==>
      var address, network := req.value.address.value, SelectedNetwork(req.value.network);
      var result := balances(address, network);
      out.calls == [BalanceCall(address, network)]
      // a lookup error is still a 200, with zero balances
      && (Truthy(result.error) ==> out == Handled(200, BalanceUnavailable(result.error.value, "0", "0"), out.calls))
      && (!Truthy(result.error) ==> out == Handled(200, BalanceFound(result.xlm, result.mint, address, network), out.calls))
    ensures out.status == 500 <==> req.Unparsable?
  {
    match req
    case Unparsable(t) => Handled(500, BalanceFailed(FETCH_FAILED, MessageOr(t, "Unknown error")), [])
    case Body(b) =>
      if !Truthy(b.address) then
        Handled(400, BalanceRejected(ADDRESS_REQUIRED), [])
      else if !(b.address.value[0] == 'G') || |b.address.value| != 56 then
        Handled(400, BalanceRejected(INVALID_ADDRESS), [])
      else
        var address, network := b.address.value, SelectedNetwork(b.network);
        var result := balances(address, network);
        var calls := [BalanceCall(address, network)];
        if Truthy(result.error) then
          Handled(200, BalanceUnavailable(result.error.value, "0", "0"), calls)
        else
          Handled(200, BalanceFound(result.xlm, result.mint, address, network), calls)
  }

  /** With the library's balance reader, a network name outside the table is not refused by the
      route: the lookup fails inside the reader and the caller sees a 200 with zero balances. */
  lemma UnknownNetworkIsLookupError(address: string, network: string, report: BalanceReport)
    requires WellFormedAddress(address) && ParseNetwork(network).None?
    requires report == BalanceReport("0", "0", Some(NO_CONFIG_MESSAGE))
    ensures GetBalancePost(Body(GetBalanceBody(Some(address), Some(network))), (a: string, k: string) => report)
         == Handled(200, BalanceUnavailable(NO_CONFIG_MESSAGE, "0", "0"), [BalanceCall(address, network)])
  {
  }

  /** A successful answer always names one of the two configured networks, when the balances
      come from the library's reader: any other key makes the reader report an error. */
  lemma FoundOnlyOnConfiguredNetwork(req: Parsed<GetBalanceBody>, balances: (string, string) -> BalanceReport)
    requires forall a: string, k: string {:trigger balances(a, k)} :: ParseNetwork(k).None? ==> balances(a, k) == BalanceReport("0", "0", Some(NO_CONFIG_MESSAGE))
    ensures GetBalancePost(req, balances).body.BalanceFound? ==> ParseNetwork(GetBalancePost(req, balances).body.network).Some?
  {
  }
}
