/** `POST /api/mint-nft`: guards, then the certificate metadata, then the certificate issuer.
    `probe` is `checkAccountExists`, `create` is `createNFTCertificate`; the clock readings
    `Date.now()` and `new Date().toISOString()` are inputs. */
module MintNftRoute {
  import opened Js
  import opened Stellar
  import opened Api

  /** The `certificateData` object; absent keys are `None`. */
  datatype CertificateData = CertificateData(completedQuizzes: Option<JsValue>, totalScore: Option<JsValue>)

  /** `certificateData: None` stands for a falsy value (absent, null, "", 0, false). */
  datatype MintNftBody = MintNftBody(recipientAddress: Option<string>, certificateData: Option<CertificateData>, network: Option<string>)

  datatype MintNftReply =
    | MintRejected(error: Option<string>)                  // { success: false, error }
    | CertificateMinted(message: string, transactionHash: Option<string>, certificateId: string, assetCode: Option<string>,
                        recipient: string, metadata: Metadata, network: string)

  const MISSING_FIELDS := "Missing recipientAddress or certificateData"
  const MINTED_MESSAGE := "NFT certificate successfully created"
  const PLATFORM := "Mintelligence"

  const TRAIT_TYPES := ["Platform", "Completed Quizzes", "Score", "Date Earned", "Network"]

  /** `certificateData.totalScore?.toString() || "Perfect"` */
  function ScoreValue(totalScore: Option<JsValue>): (score: string)
    ensures score == "Perfect" <==> totalScore.None? || totalScore.value.JsNull? || ToJsString(totalScore.value) in {"", "Perfect"}
    ensures score != "Perfect" ==> score == ToJsString(totalScore.value)
    ensures totalScore == Some(JsNumber(0)) ==> score == "0"
  {
    match OptionalToString(totalScore)
    case None => "Perfect"
    case Some(s) => if s == "" then "Perfect" else s
  }

  /** The metadata object literal; `completedQuizzes.toString()` throws when the key is absent or null. */
  function CertificateMetadata(certificateId: string, data: CertificateData, isoDate: string, network: string): (r: Result<Metadata>)
    ensures r.Ok? <==> data.completedQuizzes.Some? && !data.completedQuizzes.value.JsNull?
    ensures r.Throws? ==> r == Throws(CallToString(data.completedQuizzes).thrown)
    ensures r.Ok? ==>
      var m := r.value;
      var completed := ToJsString(data.completedQuizzes.value);
      // the id reaches the name and the image
      m.name == "Mintelligence Certificate #" + certificateId
      && m.image == "https://your-domain.com/certificates/" + certificateId + ".png"
      && m.description == "Web3 öğrenme sertifikası - " + completed + " quiz tamamlandı"
      // exactly five attributes, in a fixed order
      && |m.attributes| == 5
      && (forall k :: 0 <= k < 5 ==> m.attributes[k].traitType == TRAIT_TYPES[k])
      && m.attributes[0].value == PLATFORM
      && m.attributes[1].value == completed
      && m.attributes[2].value == ScoreValue(data.totalScore)
      && m.attributes[3].value == isoDate
      && m.attributes[4].value == network
  {
    match CallToString(data.completedQuizzes)
    case Throws(t) => Throws(t)
    case Ok(completed) =>
      Ok(Metadata(
        "Mintelligence Certificate #" + certificateId,
        "Web3 öğrenme sertifikası - " + ToJsString(data.completedQuizzes.value) + " quiz tamamlandı",
        "https://your-domain.com/certificates/" + certificateId + ".png",
        [ Attribute("Platform", PLATFORM),
          Attribute("Completed Quizzes", completed),
          Attribute("Score", ScoreValue(data.totalScore)),
          Attribute("Date Earned", isoDate),
          Attribute("Network", network) ]))
  }

  predicate Present(b: MintNftBody)
  {
    Truthy(b.recipientAddress) && b.certificateData.Some?
  }

  /** Presence and network checks pass and the probe finds an existing, funded account. */
  predicate Cleared(b: MintNftBody, probe: (string, Network) -> ProbeResult)
  {
    Present(b) && RequestedNetwork(b.network).Some?
    && probe(b.recipientAddress.value, RequestedNetwork(b.network).value).accountExists
    && probe(b.recipientAddress.value, RequestedNetwork(b.network).value).funded
  }

  function MintNftPost(req: Parsed<MintNftBody>,
                       probe: (string, Network) -> ProbeResult,
                       create: (string, string, Metadata, Network) -> IssuanceResult,
                       nowMillis: nat, isoDate: string): (out: Handled<MintNftReply>)
    ensures req.Unparsable? ==> out == Handled(500, MintRejected(Some(MessageOr(req.thrown, INTERNAL_ERROR))), [])
    // the guards, in order
    ensures req.Body? && !Present(req.value) ==> out == Handled(400, MintRejected(Some(MISSING_FIELDS)), [])
    ensures req.Body? && Present(req.value) && RequestedNetwork(req.value.network).None? ==>
      out == Handled(400, MintRejected(Some(INVALID_NETWORK)), [])
    ensures req.Body? && Present(req.value) && RequestedNetwork(req.value.network).Some? ==>
      var b := req.value;
      var recipient, n := b.recipientAddress.value, RequestedNetwork(b.network).value;
      var check := probe(recipient, n);
      1 <= |out.calls| && out.calls[0] == ProbeCall(recipient, n)
      && (!check.accountExists ==> out == Handled(400, MintRejected(Some(ACCOUNT_NOT_FOUND)), [ProbeCall(recipient, n)]))
      && (check.accountExists && !check.funded ==> out == Handled(400, MintRejected(Some(NEEDS_MORE_XLM)), [ProbeCall(recipient, n)]))
    // the probe runs only after presence and network pass; the issuer only after every guard
    ensures out.calls != [] ==> req.Body? && Present(req.value) && RequestedNetwork(req.value.network).Some?
    ensures |out.calls| == 2 ==> req.Body? && Cleared(req.value, probe)
    ensures req.Body? && Cleared(req.value, probe) ==>
      var b := req.value;
      var recipient, n := b.recipientAddress.value, RequestedNetwork(b.network).value;
      var id := NatToString(nowMillis);
      match CertificateMetadata(id, b.certificateData.value, isoDate, SelectedNetwork(b.network))
      case Throws(t) =>
        out == Handled(500, MintRejected(Some(MessageOr(t, INTERNAL_ERROR))), [ProbeCall(recipient, n)])
      case Ok(metadata) =>
        // one id, generated here, goes to the issuer, the metadata and the response
        var result := create(recipient, id, metadata, n);
        out.calls == [ProbeCall(recipient, n), CertificateCall(recipient, id, metadata, n)]
        && (!result.success ==> out.status == 500 && out.body == MintRejected(result.error))
        && (result.success ==>
              out.status == 200
              && out.body == CertificateMinted(MINTED_MESSAGE, result.transactionHash, id, result.assetCode,
                                               recipient, metadata, SelectedNetwork(b.network)))
    ensures out.status == 200 <==> out.body.CertificateMinted?
    ensures out.status == 200 || out.status == 400 || out.status == 500
  {
    match req
    case Unparsable(t) => Handled(500, MintRejected(Some(MessageOr(t, INTERNAL_ERROR))), [])
    case Body(b) =>
      if !Truthy(b.recipientAddress) || b.certificateData.None? then
        Handled(400, MintRejected(Some(MISSING_FIELDS)), [])
      else
        var network := SelectedNetwork(b.network);
        if network != "testnet" && network != "mainnet" then
          Handled(400, MintRejected(Some(INVALID_NETWORK)), [])
        else
          var recipient, n := b.recipientAddress.value, ParseNetwork(network).value;
          var accountCheck := probe(recipient, n);
          var probed := [ProbeCall(recipient, n)];
          if !accountCheck.accountExists then
            Handled(400, MintRejected(Some(ACCOUNT_NOT_FOUND)), probed)
          else if !accountCheck.funded then
            Handled(400, MintRejected(Some(NEEDS_MORE_XLM)), probed)
          else
            var certificateId := NatToString(nowMillis);
            match CertificateMetadata(certificateId, b.certificateData.value, isoDate, network)
            case Throws(t) => Handled(500, MintRejected(Some(MessageOr(t, INTERNAL_ERROR))), probed)
            case Ok(metadata) =>
              var result := create(recipient, certificateId, metadata, n);
              var calls := probed + [CertificateCall(recipient, certificateId, metadata, n)];
              if !result.success then
                Handled(500, MintRejected(result.error), calls)
              else
                Handled(200, CertificateMinted(MINTED_MESSAGE, result.transactionHash, certificateId, result.assetCode,
                                               recipient, metadata, network), calls)
  }

  /** A certificate without `completedQuizzes` passes every guard and still fails, with the
      TypeError of `undefined.toString()`, before the issuer is called. */
  lemma MissingCompletedQuizzesIsServerError(b: MintNftBody, probe: (string, Network) -> ProbeResult,
                                             create: (string, string, Metadata, Network) -> IssuanceResult, nowMillis: nat, isoDate: string)
    requires Cleared(b, probe) && b.certificateData.value.completedQuizzes.None?
    ensures MintNftPost(Body(b), probe, create, nowMillis, isoDate)
         == Handled(500, MintRejected(Some(TO_STRING_OF_UNDEFINED)), [ProbeCall(b.recipientAddress.value, RequestedNetwork(b.network).value)])
  {
  }

  /** `Date.now()` has had at least eight digits since 1970-01-01T02:46:40Z, so every certificate
      this route creates gets a full twelve-character asset code. */
  lemma ClockIdGivesFullCode(nowMillis: nat)
    requires nowMillis >= 10000000
    ensures |CertAssetCode(NatToString(nowMillis))| == MAX_ASSET_CODE
  {
    NatToStringLength(nowMillis, 7);
  }

  lemma Pow10Values()
    ensures Pow10(5) == 100000 && Pow10(12) == 1000000000000 && Pow10(13) == 10000000000000
  {
    assert Pow10(1) == 10 by { assert Pow10(0) == 1; }
    assert Pow10(2) == 100;
    assert Pow10(3) == 1000;
    assert Pow10(4) == 10000;
    assert Pow10(5) == 100000;
    assert Pow10(6) == 1000000;
    assert Pow10(7) == 10000000;
    assert Pow10(8) == 100000000;
    assert Pow10(9) == 1000000000;
    assert Pow10(10) == 10000000000;
    assert Pow10(11) == 100000000000;
    assert Pow10(12) == 1000000000000;
  }

  lemma DropFiveDigits(t: nat)
    ensures DropDigits(t, 5) == t / 100000
  {
    assert DropDigits(t, 5) == DropDigits(t / 10, 4);
    assert DropDigits(t / 10, 4) == DropDigits(t / 10 / 10, 3);
    assert DropDigits(t / 10 / 10, 3) == DropDigits(t / 10 / 10 / 10, 2);
    assert DropDigits(t / 10 / 10 / 10, 2) == DropDigits(t / 10 / 10 / 10 / 10, 1);
    assert DropDigits(t / 10 / 10 / 10 / 10, 1) == DropDigits(t / 10 / 10 / 10 / 10 / 10, 0);
  }

  /** The code of a 13-digit clock reading is "CERT" and the reading with its last five digits dropped. */
  lemma {:induction false} ClockCode(t: nat)
    requires 1000000000000 <= t < 10000000000000
    ensures CertAssetCode(NatToString(t)) == CERT_PREFIX + NatToString(t / 100000)
  {
    Pow10Values();
    NatToStringLength(t, 12);
    NatToStringShort(t, 13);
    NatToStringPrefix(t, 5);
    DropFiveDigits(t);
    var code := CertAssetCode(NatToString(t));
    assert code == code[..4] + code[4..];
  }

  /** Every id this route generates between 2001-09-09 and 2286-11-20 has 13 digits. On those, two
      certificates get the same asset code exactly when their clock readings fall in the same
      aligned 100-second window (equal readings divided by 100000). */
  lemma ClockCodeCollision(t1: nat, t2: nat)
    requires 1000000000000 <= t1 < 10000000000000 && 1000000000000 <= t2 < 10000000000000
    ensures CertAssetCode(NatToString(t1)) == CertAssetCode(NatToString(t2)) <==> t1 / 100000 == t2 / 100000
  {
    ClockCode(t1);
    ClockCode(t2);
    if CertAssetCode(NatToString(t1)) == CertAssetCode(NatToString(t2)) {
      assert NatToString(t1 / 100000) == (CERT_PREFIX + NatToString(t1 / 100000))[4..];
      assert NatToString(t2 / 100000) == (CERT_PREFIX + NatToString(t2 / 100000))[4..];
      NatToStringInjective(t1 / 100000, t2 / 100000);
    }
  }
}
