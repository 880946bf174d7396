# Mintelligence: quiz rewards on Stellar, modelled in Dafny

Mintelligence is a quiz site. A right answer earns MINT tokens on the Stellar ledger, and every
third completed quiz earns an NFT certificate. This project models its core:

- the Stellar helper library (`lib/stellar.ts`): network configuration, the balance reader,
  the account probe, the token and certificate issuers, and the trustline helpers;
- the three API routes (`send-token`, `mint-nft`, `get-balance`): their guard chains, status
  codes and response bodies;
- the stand-alone leaderboard server (`quiz.js`);
- the quiz page's progress state (`app/page.tsx`): how an answer updates state, the reset on
  disconnect, the requests the page sends, and the certificate counters.

Modules, one per file:

- `Js` (`js.dfy`): the JavaScript semantics the code depends on:
  - a thrown value and `e instanceof Error ? e.message : fallback`;
  - string truthiness and `includes`;
  - number-to-string conversion;
  - the TypeErrors of `.toString()` on `undefined` or `null`, and `?.toString()`.
- `Stellar` (`stellar.dfy`): the library.
  - The Stellar SDK is an oracle value `Sdk`. It gives what `loadAccount` and `submitTransaction`
    return on each network, and whether building an asset or a transaction throws.
  - The library's issuer methods also return the ledger calls they make, in order.
- `Api` (`api.dfy`): what the three routes share:
  - a parsed body or the exception of `request.json()`;
  - the default network `'testnet'`;
  - the shared error texts;
  - `Handled`, which holds a status code, a reply, and the library calls the route made.
- `SendTokenRoute`, `MintNftRoute`, `GetBalanceRoute`: each route is one function. The library
  calls are function parameters.
- `QuizServer` (`quiz_server.dfy`): the reward tier, the stable sort by score, and a
  `Leaderboard` class whose shared `entries` the handler appends to and sorts in place.
- `QuizPage` (`quiz_page.dfy`): a `QuizProgress` class with the page's React state as fields.

Things worth knowing, all stated as lemmas:

- The certificate asset code keeps only eight characters of the id. The mint-nft route uses
  `Date.now()` as the id, so for 13-digit readings two certificates get the same asset code
  exactly when their readings agree after dropping the last five digits: they fall in the same
  aligned 100-second window (`MintNftRoute.ClockCodeCollision`). Two readings 1 ms apart can
  still get different codes when they straddle a window boundary.
- `handleNFTMint` sends `address` and `completedQuizzes` at the top level. The mint-nft route
  reads `recipientAddress` and `certificateData`, so it rejects every such request
  (`QuizPage.NftButtonAlwaysRejected`). The page never renders a control that calls
  `handleNFTMint`.
- The certificate `totalScore` the page sends is the token count before the answer plus the
  constant 50, whatever the quiz's reward was.
- `get-balance` passes an unvalidated network key to the reader. An unknown key is not refused:
  the reader fails, and the route answers 200 with zero balances
  (`GetBalanceRoute.UnknownNetworkIsLookupError`).

## Model

| member | source | states |
|---|---|---|
| Js.NatToString | app/api/mint-nft/route.ts:55 | a clock reading's decimal text is non-empty, all digits, with no leading zero |
| Js.NatToStringValue | app/api/mint-nft/route.ts:55 | the decimal text denotes the number printed |
| Js.NatToStringInjective | app/api/mint-nft/route.ts:55 | different readings print as different ids |
| Js.NatToStringShort | app/api/mint-nft/route.ts:55 | a number below 10^k prints with at most k digits |
| Js.NatToStringPrefix | app/api/mint-nft/route.ts:55 | the text without its last j characters is the number with its last j digits dropped |
| Js.NatToStringLength | app/api/mint-nft/route.ts:55 | a number of at least 10^k has more than k digits |
| Js.ToStringForms | app/api/mint-nft/route.ts:69-73 | `x?.toString()` is `x.toString()` with its TypeError turned into undefined: the same text where the call succeeds, nothing exactly where the call throws, and what it throws is an Error |
| Js.IncludesInfix | lib/stellar.ts:266 | `includes` finds a text wherever it sits in the message |
| Js.IncludesHasInfix | lib/stellar.ts:266 | conversely, a message that `includes` a text holds it at some position |
| Stellar.ParseNetwork | lib/stellar.ts:14-26 | only the keys "testnet" and "mainnet" name a network, and a parsed key names itself back |
| Stellar.NetworkNameRoundTrip | lib/stellar.ts:14-26 | each network's key parses back to that network, and different networks have different keys |
| Stellar.MintTokenFor | lib/stellar.ts:28-40 | on both networks the reward asset is the credit asset MINT of the one fixed 56-character issuer |
| Stellar.LastBalanceNone | lib/stellar.ts:61-74 | with no matching balance line the reported balance stays "0" |
| Stellar.LastBalanceIsLastMatch | lib/stellar.ts:64-74 | the reported balance is that of the last matching line, since `forEach` overwrites earlier matches |
| Stellar.LastBalanceIgnores | lib/stellar.ts:64-74 | a line that does not match leaves the reported balance unchanged wherever it sits |
| Stellar.ForeignMintIgnored | lib/stellar.ts:69-72 | a MINT line from another issuer never counts as the MINT balance |
| Stellar.GetAccountBalance | lib/stellar.ts:49-85 | an unknown network key gives the TypeError and zero balances; a failed load gives its message or "Balance fetch failed" with zero balances; a loaded account gives the last native and the last MINT balance |
| Stellar.FindNative | lib/stellar.ts:258 | `find` returns the first native line, or nothing when there is none |
| Stellar.CheckAccountExists | lib/stellar.ts:244-279 | a loaded account exists and carries no error; it is funded exactly when its first native line parses to at least 1; a failed load neither exists nor is funded; the error is absent exactly for a "not found" Error and otherwise is the message or "Account check failed" |
| Stellar.NotFoundSignalMeaning | lib/stellar.ts:266 | the not-found test holds exactly for an Error whose message holds "Account not found" at some position |
| Stellar.NotFoundAnywhereInMessage | lib/stellar.ts:265-271 | any Error whose message contains "Account not found" makes the probe report a missing account with no error |
| Stellar.SendMintTokens | lib/stellar.ts:90-153 | loads the issuer first and submits at most once, as the last call; if the recipient does not load, it fails with the fund-first message and submits nothing; the submitted envelope is one payment of MINT to the recipient for the amount, with the reward memo and a 30-second timeout, signed by the server key; success carries the ledger's hash, and every failure carries an error and no hash |
| Stellar.CertAssetCode | lib/stellar.ts:179 | the code is "CERT" plus the longest prefix of the id that fits in 12 characters: the whole id when it has at most 8 characters, otherwise exactly 12 characters |
| Stellar.CertAssetCodeSharedPrefix | lib/stellar.ts:179 | two ids of 8 or more characters with the same first 8 characters give the same asset code |
| Stellar.CertAssetCodeCollision | lib/stellar.ts:179 | the clock ids 1718000000000 and 1718000099999 both give CERT17180000 |
| Stellar.CreateNFTCertificate | lib/stellar.ts:158-239 | an asset the SDK refuses fails with no ledger call; otherwise it loads the issuer and submits at most once; the transaction pays one unit of the certificate asset to the recipient and sets the home domain, with memo "NFT Certificate: " plus the id; success carries the hash and the asset code, and a failure carries neither |
| Stellar.CreateTrustline | lib/stellar.ts:285-306 | always fails, with the message that a trustline needs the user's signature |
| Stellar.GetTrustlineInfo | lib/stellar.ts:312-319 | a credit asset with the MINT code and issuer, and the network's own passphrase |
| Stellar.TrustlineIsCountedAsMint | lib/stellar.ts:69-72 | a balance line for the trustline's asset counts as the MINT balance |
| SendTokenRoute.SendTokenPost | app/api/send-token/route.ts:5-91 | a bad body is a 500; the missing-field, network and amount checks run in that order, each a 400 before any library call; the probe runs exactly when all three pass; a missing or underfunded account is a 400; the issuer is called exactly for an existing, funded account, with the request's own values; its failure is a 500 carrying its error, and its success a 200 echoing recipient, amount and network; status 200 exactly for a success |
| SendTokenRoute.AddressFormatNotChecked | app/api/send-token/route.ts:11-37 | any non-empty recipient text reaches the probe, on testnet by default |
| SendTokenRoute.UnderfundedAccountRejected | app/api/send-token/route.ts:37-57 | with the library's probe, an account whose first native balance reads below 1 gets the more-XLM 400 and no tokens |
| MintNftRoute.ScoreValue | app/api/mint-nft/route.ts:73 | the score is "Perfect" exactly when totalScore is absent, null, or reads as "" or "Perfect"; otherwise it is totalScore's string, and a score of 0 shows as "0" |
| MintNftRoute.CertificateMetadata | app/api/mint-nft/route.ts:58-84 | throws exactly when completedQuizzes is absent or null; otherwise the name and image carry the id, and the five attributes in their fixed order carry the platform, the quiz count, the score, the date and the network |
| MintNftRoute.MintNftPost | app/api/mint-nft/route.ts:5-127 | a bad body is a 500; the missing-field and network checks run in order, each a 400 before any call; then the probe, where a missing or underfunded account is a 400; the metadata is built only after every check, and a throw there is a 500 after the probe alone; the one clock id goes to the issuer and into the reply; the issuer's failure is a 500 and its success a 200 |
| MintNftRoute.MissingCompletedQuizzesIsServerError | app/api/mint-nft/route.ts:58-69 | a certificate without completedQuizzes passes every check, then fails with a 500 carrying the undefined-toString TypeError, and the issuer is never called |
| MintNftRoute.ClockIdGivesFullCode | app/api/mint-nft/route.ts:55 | any clock reading of at least 10^7 ms gives a full 12-character asset code |
| MintNftRoute.ClockCode | app/api/mint-nft/route.ts:55 | the code of a 13-digit reading is "CERT" followed by the reading with its last five digits dropped |
| MintNftRoute.ClockCodeCollision | app/api/mint-nft/route.ts:55 | two 13-digit readings give the same asset code exactly when they agree after dividing by 100000 |
| GetBalanceRoute.GetBalancePost | app/api/get-balance/route.ts:5-58 | a bad body is a 500; a missing address or one that is not 56 characters starting with G is a 400 with no lookup; the reader runs exactly when both checks pass; its error gives a 200 with zero balances, and otherwise a 200 with the balances, the address and the network |
| GetBalanceRoute.UnknownNetworkIsLookupError | app/api/get-balance/route.ts:8-38 | an unknown network key is not refused: with the library's reader it gives a 200 with zero balances and the TypeError |
| GetBalanceRoute.FoundOnlyOnConfiguredNetwork | app/api/get-balance/route.ts:28-47 | with the library's reader, a success reply always names one of the two configured networks |
| QuizServer.Reward | quiz.js:18-21 | Gold at 80 and above, Silver from 50 to 79, the study-more text below 50 |
| QuizServer.InsertKeepsEntries | quiz.js:28 | one insertion step adds exactly the inserted entry |
| QuizServer.InsertKeepsOrder | quiz.js:28 | inserting into an ordered board keeps it ordered by score |
| QuizServer.SortByScoreCorrect | quiz.js:28 | the sort leaves scores in non-increasing order and is a permutation of the board |
| QuizServer.InsertWithScore | quiz.js:28 | an insertion step leaves the entries of every other score in their previous order |
| QuizServer.SortByScoreStable | quiz.js:28 | entries with equal scores keep their relative order |
| QuizServer.SortSortedIsIdentity | quiz.js:26-29 | sorting a board that is already in order leaves it unchanged |
| QuizServer.Leaderboard.constructor | quiz.js:3 | the board starts empty |
| QuizServer.Leaderboard.Handle | quiz.js:5-33 | POST /quiz appends the submission and answers with its tier and the whole board; GET /leaderboard replaces the shared board with its sorted version, a permutation in score order; any other request is a 404 and changes nothing |
| QuizPage.RemainingForNext | app/page.tsx:539 | between 1 and 3 quizzes remain, and exactly 3 remain when the count is a whole number of certificates |
| QuizPage.CountersAdvance | app/page.tsx:158-168 | one more completed quiz counts the remaining number down, wrapping from 1 to 3; the certificate count rises exactly when the new count is a multiple of 3, the point at which a certificate is requested |
| QuizPage.QuizProgress.constructor | app/page.tsx:62-69 | every counter starts at its initial value |
| QuizPage.QuizProgress.AnswerQuiz | app/page.tsx:129-212 | an answered quiz changes nothing; otherwise the answer is recorded; a wrong answer changes no counter and sends nothing; a right answer adds the reward and one completed quiz whatever the send returns, and always sends the reward request first; a certificate request with the new count and the earlier tokens plus 50 follows exactly when the send succeeded and the new count is a multiple of 3; completed quizzes never exceed answered ones |
| QuizPage.QuizProgress.ConnectionChanged | app/page.tsx:77-87 | without both a connection and an address every counter is reset; with both the state is unchanged |
| QuizPage.RewardRequestReachesProbe | app/page.tsx:141-151 | with an address, the page's reward request passes the send-token checks and reaches the probe on the page's network, provided its amount parses as positive |
| QuizPage.CertificateRequestBuildsMetadata | app/page.tsx:199-212 | the page's certificate request always carries completedQuizzes, so the route's metadata never throws, and the score shows the earlier tokens plus 50 |
| QuizPage.NftButtonRequest | app/page.tsx:229-243 | no request without an address; otherwise the body carries the address, the page's network name, the completed count and the id "clock-number" |
| QuizPage.NftButtonAlwaysRejected | app/page.tsx:229-243 | the mint-nft route rejects every request `handleNFTMint` sends, as missing fields, with no library call |

## Left out

- The Stellar SDK itself is left out: keys, signing, XDR, the Horizon client, and fees. Its answers are inputs (`Sdk`), and network passphrases are abstract values.
- Sequence numbers and concurrent submissions are left out. Each issuer call sees one fixed ledger answer.
- `parseFloat` and IEEE numbers are a parser parameter. Amounts and balances stay strings, as in the source.
- The routes' string fields (`recipientAddress`, `amount`, `network`, `address`) are modelled only as strings or absent. A non-string value there is left out, and so is a JSON `null` network, which the destructuring default does not replace.
- MintNftRoute.CertificateMetadata and MintNftRoute.ScoreValue take `completedQuizzes` and `totalScore` as null, a boolean, a string, or an integer below 10^21 in magnitude. Fractions, exponent forms, integers that lose precision in `JSON.parse`, objects and arrays are left out.
- In `quiz.js`, a body that is not JSON makes `JSON.parse` crash the process. The model takes submissions already parsed.
- Scores in `quiz.js` are integers. Non-numeric or non-finite scores, and the comparator's subtraction on such scores, are left out.
- The page's token counts and rewards are integers.
- Alerts, toasts, `console` output, rendering, and the timeout of the wrong-answer message are left out of the page model.
- `mintNFTCertificate`'s reply and the `data.transactionHash` in alerts are left out. They change no state.
- `fetchMintBalance` is I/O and is left out. The reset effect's connected branch is modelled as changing nothing.
- The `nftCount` increment in `handleNFTMint` is left out, because the route never answers that request with success.
- React's batching of state updates is left out. Each handler is one atomic step on `QuizProgress`.
- Reading `Date.now()` and `new Date().toISOString()`, and building the server keypair from the environment, are left out. The clock readings and the server key are inputs.
- `STELLAR_CONFIG[network]` with a key that is not a network but is inherited from `Object.prototype`, such as `"constructor"`, is left out. Each such key is treated like any other unknown key.
- Strings are sequences of code points, not UTF-16 units, so characters outside the Basic Multilingual Plane count once instead of twice. Two places depend on this: `substring(0, 12)` of the certificate code, and get-balance's 56-character address check (`GetBalanceRoute.WellFormedAddress`). An address holding such a character has a different JavaScript length and is accepted or refused differently there.
- The SDK's own limits, such as the 28-byte limit on a text memo, are inside the `buildError` oracle and are not stated.
- The routes' `OPTIONS` handlers are constant CORS replies and are left out.
- `server.js` and `lib/types.ts` are not part of this model.
