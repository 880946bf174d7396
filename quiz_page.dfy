/** The quiz page's progress state: which quizzes were answered, the local token and completion
    counters, and the requests the page sends to the API routes. The send-token response is an
    input (`SendOutcome`); what the mint-nft call answers changes no state and is not modelled. */
module QuizPage {
  import opened Js
  import opened Stellar
  import opened Api
  import SendTokenRoute
  import MintNftRoute

  /** How the `/api/send-token` call of `handleQuizAnswer` ended: `data.success` true, false, or an exception. */
  datatype SendOutcome = Succeeded | Unsuccessful | Threw

  /** A request the page posts, with its JSON body as the route reads it. */
  datatype PageRequest =
    | SendTokenRequest(sendBody: SendTokenRoute.SendTokenBody)
    | MintNftRequest(mintBody: MintNftRoute.MintNftBody)

  /** `{ recipientAddress: address, amount: reward.toString(), network }` */
  function RewardRequestBody(address: Option<string>, reward: int, network: Network): SendTokenRoute.SendTokenBody
  {
    SendTokenRoute.SendTokenBody(address, Some(IntToString(reward)), Some(NetworkName(network)))
  }

  /** The body `mintNFTCertificate` posts. `totalScore` is the token count the handler saw when it
      started (the closure's `tokens`) plus the constant 50, whatever the quiz's reward. */
  function CertificateRequestBody(address: Option<string>, completedCount: nat, tokensSeen: int, network: Network): MintNftRoute.MintNftBody
  {
    MintNftRoute.MintNftBody(address,
      Some(MintNftRoute.CertificateData(Some(JsNumber(completedCount)), Some(JsNumber(tokensSeen + 50)))),
      Some(NetworkName(network)))
  }

  const QUIZZES_PER_CERTIFICATE: nat := 3

  /** `Math.floor(completedCourses / 3)` */
  function CertificatesEarned(completed: nat): nat
  {
    completed / QUIZZES_PER_CERTIFICATE
  }

  /** `3 - (completedCourses % 3)` */
  function RemainingForNext(completed: nat): (r: nat)
    ensures 1 <= r <= QUIZZES_PER_CERTIFICATE
    ensures r == QUIZZES_PER_CERTIFICATE <==> CertificatesEarned(completed) * QUIZZES_PER_CERTIFICATE == completed
  {
    QUIZZES_PER_CERTIFICATE - completed % QUIZZES_PER_CERTIFICATE
  }

  /** One more completed quiz: "remaining" counts down and wraps from 1 to 3, and the displayed
      certificate count goes up exactly when the new count is a multiple of 3, which is when a
      certificate is requested. */
  lemma CountersAdvance(c: nat)
    ensures (c + 1) % QUIZZES_PER_CERTIFICATE == 0 <==> CertificatesEarned(c + 1) == CertificatesEarned(c) + 1
    ensures (c + 1) % QUIZZES_PER_CERTIFICATE != 0 ==> CertificatesEarned(c + 1) == CertificatesEarned(c)
    ensures (c + 1) % QUIZZES_PER_CERTIFICATE == 0 <==> RemainingForNext(c) == 1
    ensures RemainingForNext(c + 1) == if RemainingForNext(c) == 1 then QUIZZES_PER_CERTIFICATE else RemainingForNext(c) - 1
  {
  }

  class QuizProgress {
    var tokens: int
    var completedCourses: nat
    var quizAnswers: map<int, int>
    var mintBalance: string
    var nftCount: nat

    /** Every completed quiz is an answered one. */
    ghost predicate Valid()
      reads this
    {
      completedCourses <= |quizAnswers|
    }

    predicate Initial()
      reads this
    {
      tokens == 0 && completedCourses == 0 && quizAnswers == map[] && mintBalance == "0" && nftCount == 0
    }

    constructor ()
      ensures Initial() && Valid()
    {
      tokens, completedCourses, quizAnswers, mintBalance, nftCount := 0, 0, map[], "0", 0;
    }

    /** `handleQuizAnswer`; returns the requests it sends, in order. */
    method AnswerQuiz(quizId: int, answerIndex: int, correctIndex: int, reward: int,
                      address: Option<string>, network: Network, outcome: SendOutcome)
      returns (requests: seq<PageRequest>)
      requires Valid()
      modifies this
      ensures Valid()
      // a quiz already answered changes nothing and sends nothing
      ensures quizId in old(quizAnswers) ==> requests == [] && unchanged(this)
      // otherwise the answer is recorded, right or wrong, whatever the request does
      ensures quizId !in old(quizAnswers) ==>
        quizAnswers == old(quizAnswers)[quizId := answerIndex]
        && mintBalance == old(mintBalance) && nftCount == old(nftCount)
      ensures quizId !in old(quizAnswers) && answerIndex != correctIndex ==>
        tokens == old(tokens) && completedCourses == old(completedCourses) && requests == []
      // a right answer counts in all three outcomes; a certificate is requested only after a
      // successful send that brings the count to a multiple of 3
      ensures quizId !in old(quizAnswers) && answerIndex == correctIndex ==>
        tokens == old(tokens) + reward && completedCourses == old(completedCourses) + 1
        && 1 <= |requests| <= 2
        && requests[0] == SendTokenRequest(RewardRequestBody(address, reward, network))
        && (|requests| == 2 <==> outcome == Succeeded && completedCourses % QUIZZES_PER_CERTIFICATE == 0)
        && (|requests| == 2 ==> requests[1] == MintNftRequest(CertificateRequestBody(address, completedCourses, old(tokens), network)))
    {
      requests := [];
      if quizId in quizAnswers {
        return;
      }
      var tokensSeen := tokens;
      quizAnswers := quizAnswers[quizId := answerIndex];
      assert quizAnswers.Keys == old(quizAnswers).Keys + {quizId};

      if answerIndex == correctIndex {
        requests := [SendTokenRequest(RewardRequestBody(address, reward, network))];
        match outcome
        case Succeeded =>
          tokens := tokens + reward;
          var newCount := completedCourses + 1;
          if newCount % QUIZZES_PER_CERTIFICATE == 0 {
            requests := requests + [MintNftRequest(CertificateRequestBody(address, newCount, tokensSeen, network))];
          }
          completedCourses := newCount;
        case Unsuccessful =>
          tokens := tokens + reward;
          completedCourses := completedCourses + 1;
        case Threw =>
          tokens := tokens + reward;
          completedCourses := completedCourses + 1;
      }
    }

    /** The effect on `[isConnected, address]`: without a connection and an address, every counter
        goes back to its initial value. With both, the page fetches the balance, which is not modelled. */
    method ConnectionChanged(isConnected: bool, address: Option<string>)
      requires Valid()
      modifies this
      ensures Valid()
      ensures !(isConnected && Truthy(address)) ==> Initial()
      ensures isConnected && Truthy(address) ==> unchanged(this)
    {
      if !(isConnected && Truthy(address)) {
        tokens := 0;
        completedCourses := 0;
        quizAnswers := map[];
        mintBalance := "0";
        nftCount := 0;
      }
    }
  }

  // ---------------------------------------------------------------------------
  // What the routes make of the page's requests

  /** With an address, the reward request passes the send-token route's presence and network checks,
      and with an amount that reads as positive it reaches the probe. */
  lemma RewardRequestReachesProbe(address: string, reward: int, network: Network, parse: Parser,
                                  probe: (string, Network) -> ProbeResult, send: (string, string, Network) -> IssuanceResult)
    requires address != "" && SendTokenRoute.PositiveAmount(parse(IntToString(reward)))
    ensures SendTokenRoute.SendTokenPost(Body(RewardRequestBody(Some(address), reward, network)), parse, probe, send).calls[0]
         == ProbeCall(address, network)
  {
  }

  /** The certificate request always carries `completedQuizzes`, so the route's metadata
      construction never throws on it. */
  lemma CertificateRequestBuildsMetadata(address: Option<string>, completedCount: nat, tokensSeen: int, network: Network,
                                         certificateId: string, isoDate: string)
    ensures var data := CertificateRequestBody(address, completedCount, tokensSeen, network).certificateData.value;
      MintNftRoute.CertificateMetadata(certificateId, data, isoDate, NetworkName(network)).Ok?
      && MintNftRoute.CertificateMetadata(certificateId, data, isoDate, NetworkName(network)).value.attributes[2].value
         == IntToString(tokensSeen + 50)
  {
  }

  // ---------------------------------------------------------------------------
  // handleNFTMint

  /** `{ address, network: network || 'testnet', certificateId: `${Date.now()}-${n}`, completedQuizzes }` */
  datatype NftButtonBody = NftButtonBody(address: string, network: string, certificateId: string, completedQuizzes: nat)

  /** The body `handleNFTMint` posts, or `None` when there is no address and it returns early. */
  function NftButtonRequest(address: Option<string>, network: Network, nowMillis: nat, certificateNumber: int, completed: nat): (r: Option<NftButtonBody>)
    ensures r.Some? <==> Truthy(address)
    ensures r.Some? ==>
      r.value.address == address.value && r.value.completedQuizzes == completed
      && r.value.certificateId == NatToString(nowMillis) + "-" + IntToString(certificateNumber)
      && r.value.network == NetworkName(network)
  {
    if !Truthy(address) then None
    else Some(NftButtonBody(address.value, NetworkName(network), NatToString(nowMillis) + "-" + IntToString(certificateNumber), completed))
  }

  /** What the mint-nft route's destructuring finds in that body: neither `recipientAddress`
      nor `certificateData` is among its keys. */
  function AsMintNftBody(b: NftButtonBody): MintNftRoute.MintNftBody
  {
    MintNftRoute.MintNftBody(None, None, Some(b.network))
  }

  /** The mint-nft route rejects every request `handleNFTMint` can send, before any library call. */
  lemma NftButtonAlwaysRejected(address: Option<string>, network: Network, nowMillis: nat, certificateNumber: int, completed: nat,
                                probe: (string, Network) -> ProbeResult, create: (string, string, Metadata, Network) -> IssuanceResult,
                                serverNow: nat, isoDate: string)
    requires Truthy(address)
    ensures var body := NftButtonRequest(address, network, nowMillis, certificateNumber, completed).value;
      MintNftRoute.MintNftPost(Body(AsMintNftBody(body)), probe, create, serverNow, isoDate)
      == Handled(400, MintNftRoute.MintRejected(Some(MintNftRoute.MISSING_FIELDS)), [])
  {
  }
}
