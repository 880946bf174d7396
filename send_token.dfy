/** `POST /api/send-token`: a chain of guards with early returns, then the reward issuer.
    The library functions it calls are parameters: `probe` is `checkAccountExists`, `send` is `sendMintTokens`. */
module SendTokenRoute {
  import opened Js
  import opened Stellar
  import opened Api

  datatype SendTokenBody = SendTokenBody(recipientAddress: Option<string>, amount: Option<string>, network: Option<string>)

  datatype SendTokenReply =
    | SendRejected(error: Option<string>)                  // { success: false, error }
    | TokensSent(message: string, transactionHash: Option<string>, recipient: string, amount: string, network: string)

  const MISSING_FIELDS := "Missing recipientAddress or amount"
  const INVALID_AMOUNT := "Invalid amount"

  predicate Present(b: SendTokenBody)
  {
    Truthy(b.recipientAddress) && Truthy(b.amount)
  }

  /** `!(isNaN(x) || x <= 0)` for `x = parseFloat(amount)`. */
  predicate PositiveAmount(parsed: Option<real>)
  {
    parsed.Some? && parsed.value > 0.0
  }

  /** All three validations pass. */
  predicate Validated(b: SendTokenBody, parse: Parser)
  {
    Present(b) && RequestedNetwork(b.network).Some? && PositiveAmount(parse(b.amount.value))
  }

  function SendTokenPost(req: Parsed<SendTokenBody>, parse: Parser,
                         probe: (string, Network) -> ProbeResult,
                         send: (string, string, Network) -> IssuanceResult): (out: Handled<SendTokenReply>)
    // an exception (only `request.json()` can throw here) is a 500 and calls nothing
    ensures req.Unparsable? ==> out == Handled(500, SendRejected(Some(MessageOr(req.thrown, INTERNAL_ERROR))), [])
    // the validations, in order, each ending the request before any library call
    ensures req.Body? && !Present(req.value) ==> out == Handled(400, SendRejected(Some(MISSING_FIELDS)), [])
    ensures req.Body? && Present(req.value) && RequestedNetwork(req.value.network).None? ==>
      out == Handled(400, SendRejected(Some(INVALID_NETWORK)), [])
    ensures req.Body? && Present(req.value) && RequestedNetwork(req.value.network).Some? && !PositiveAmount(parse(req.value.amount.value)) ==>
      out == Handled(400, SendRejected(Some(INVALID_AMOUNT)), [])
    // the probe runs exactly when the validations pass
    ensures out.calls != [] <==> req.Body? && Validated(req.value, parse)
    ensures req.Body? && Validated(req.value, parse) ==>
      var b := req.value;
      var recipient, amount, n := b.recipientAddress.value, b.amount.value, RequestedNetwork(b.network).value;
      var check := probe(recipient, n);
      out.calls[0] == ProbeCall(recipient, n)
      // not found, whether or not the probe carried an error
      && (!check.accountExists ==> out == Handled(400, SendRejected(Some(ACCOUNT_NOT_FOUND)), [ProbeCall(recipient, n)]))
      && (check.accountExists && !check.funded ==> out == Handled(400, SendRejected(Some(NEEDS_MORE_XLM)), [ProbeCall(recipient, n)]))
      // the issuer is called only for an existing, funded account, with the request's own values
      && (check.accountExists && check.funded <==> |out.calls| == 2)
      && (check.accountExists && check.funded ==>
            var result := send(recipient, amount, n);
            out.calls == [ProbeCall(recipient, n), SendCall(recipient, amount, n)]
            && (!result.success ==> out.status == 500 && out.body == SendRejected(result.error))
            && (result.success ==>
                  out.status == 200
                  && out.body == TokensSent("Successfully sent " + amount + " MINT tokens", result.transactionHash,
                                            recipient, amount, SelectedNetwork(b.network))))
    ensures out.status == 200 <==> out.body.TokensSent?
    ensures out.status == 200 || out.status == 400 || out.status == 500
  {
    match req
    case Unparsable(t) => Handled(500, SendRejected(Some(MessageOr(t, INTERNAL_ERROR))), [])
    case Body(b) =>
      if !Truthy(b.recipientAddress) || !Truthy(b.amount) then
        Handled(400, SendRejected(Some(MISSING_FIELDS)), [])
      else
        var network := SelectedNetwork(b.network);
        if network != "testnet" && network != "mainnet" then
          Handled(400, SendRejected(Some(INVALID_NETWORK)), [])
        else
          var recipient, amount, n := b.recipientAddress.value, b.amount.value, ParseNetwork(network).value;
          var numAmount := parse(amount);
          if numAmount.None? || numAmount.value <= 0.0 then
            Handled(400, SendRejected(Some(INVALID_AMOUNT)), [])
          else
            var accountCheck := probe(recipient, n);
            if !accountCheck.accountExists then
              Handled(400, SendRejected(Some(ACCOUNT_NOT_FOUND)), [ProbeCall(recipient, n)])
            else if !accountCheck.funded then
              Handled(400, SendRejected(Some(NEEDS_MORE_XLM)), [ProbeCall(recipient, n)])
            else
              var result := send(recipient, amount, n);
              var calls := [ProbeCall(recipient, n), SendCall(recipient, amount, n)];
              if !result.success then
                Handled(500, SendRejected(result.error), calls)
              else
                Handled(200, TokensSent("Successfully sent " + amount + " MINT tokens", result.transactionHash,
                                        recipient, amount, network), calls)
  }

  /** The recipient address is never checked for format here: any non-empty string reaches the probe. */
  lemma AddressFormatNotChecked(recipient: string, amount: string, parse: Parser,
                                probe: (string, Network) -> ProbeResult, send: (string, string, Network) -> IssuanceResult)
    requires recipient != "" && amount != "" && PositiveAmount(parse(amount))
    ensures SendTokenPost(Body(SendTokenBody(Some(recipient), Some(amount), None)), parse, probe, send).calls[0]
         == ProbeCall(recipient, Testnet)
  {
  }

  /** With the library's own probe: an existing account whose native balance reads below 1 is
      told to get more XLM, and no tokens are sent. */
  lemma UnderfundedAccountRejected(sdk: Sdk, b: SendTokenBody, parse: Parser, send: (string, string, Network) -> IssuanceResult,
                                   entries: seq<BalanceEntry>, i: nat)
    requires Validated(b, parse)
    requires sdk.loadAccount(RequestedNetwork(b.network).value, b.recipientAddress.value) == Loaded(entries)
    requires i < |entries| && Matches(NativeHolding, entries[i])
    requires forall j :: 0 <= j < i ==> !Matches(NativeHolding, entries[j])
    requires parse(entries[i].balance).Some? && parse(entries[i].balance).value < FUNDING_THRESHOLD
    ensures var probe := (a: string, n: Network) => CheckAccountExists(sdk, a, n, parse);
      SendTokenPost(Body(b), parse, probe, send)
      == Handled(400, SendRejected(Some(NEEDS_MORE_XLM)), [ProbeCall(b.recipientAddress.value, RequestedNetwork(b.network).value)])
  {
  }
}
