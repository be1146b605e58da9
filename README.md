# Anonymous vote submission: page dispatch and feedback route

A Dafny model of how the zkvoting web app gets an anonymous vote onto the
ledger. Two pieces are modelled:

- the voting page's `castVote` callback (`apps/web-app/src/app/proofs/page.tsx`):
  it refuses to run without an identity and a selected option, encodes the
  selected label as its index in the page's catalog (the proof's public
  message), asks the proving library for a Semaphore proof, builds exactly
  one request — for the managed-relayer webhook, else for the Gelato relay
  when endpoint, chain id and API key are all set, else for the app's own
  API — and judges the reply by that path's own success status (200, 201,
  200). On success the label is appended to the vote list, the selection is
  cleared and a success line is logged; otherwise only the error line is
  logged; the loading flag is cleared on every outcome. The vote list is
  displayed newest first. As the page is written, the webhook request never
  leaves: serialising its body throws on the BigInt message, so the call
  ends in the catch branch (see "## Findings"); the model states both that
  behaviour and the corrected one.
- the `POST api/feedback` route (`apps/web-app/src/app/api/feedback/route.ts`):
  it throws without a private key, picks the local JSON-RPC node for the
  network `"localhost"` and Infura otherwise, turns the label back into an
  index with `indexOf` over its own copy of the catalog, answers 500 for an
  unknown label without calling the ledger, and answers 200 only after the
  `castVote` transaction is confirmed (500 for any error of the call or of
  the confirmation).

The property that ties the two together (`EndToEnd`): both files hard-code
the same four distinct labels, so for every label the page offers, whichever
path the configuration selects, with the corrected webhook body, the ledger
is asked to record exactly the index the page bound into the proof, with the
proof's other fields unchanged (on the two relay paths, given that the relays
forward the parameters they receive). As the page is written, the webhook
path sends nothing at all.

Layout: `protocol.dfy` (shared values), `catalog.dfy` (the catalog and
`indexOf`), `proofs_page.dfy` (the page, with `castVote` as the method
`CastVote` of the class `Page` and its relay chain as the helper `Page.Relay`), `feedback_route.dfy` (the route as a function),
`webhook_json.dfy` (the webhook body and its serialisation),
`end_to_end.dfy` (cross-file lemmas).

Abstract inputs: the contract artifact's ABI is a JSON value `abi`; the
proving library is a function parameter
`prove: ProofInput -> Option<ZkProof>` (`None` when it throws); the reply to
the page's one request is a parameter (`Status(code)` or `Threw`); the
route's request body is `Option<FeedbackBody>` (`None` when it is not JSON)
and the ledger call's fate is a `TxOutcome` (call rejected, confirmation
rejected, confirmed). Environment variables are `Option<string>`; JavaScript
truthiness (`Truthy`: set and not empty) decides the page's relay choice,
while the route's key check only asks that the key be a string, so an empty
key passes it.

## Model

| member | source | states |
|---|---|---|
| `VoteCatalog.IndexOf` | apps/web-app/src/app/proofs/page.tsx:47 | `indexOf` gives -1 exactly when the label is absent, and otherwise a position holding the label with no earlier occurrence |
| `VoteCatalog.IndexOfDistinct` | apps/web-app/src/app/api/feedback/route.ts:27-28 | in a catalog without duplicates, looking up the label at position i gives back i |
| `VoteCatalog.CatalogsAgree` | apps/web-app/src/app/proofs/page.tsx:24 | the page's and the route's catalogs are the same four distinct labels |
| `VoteCatalog.ClientServerRoundTrip` | apps/web-app/src/app/api/feedback/route.ts:27-28 | for a label the page offers, the route's index equals the page's index, lies in [0, 4) and names that label |
| `VoteCatalog.IndexRoundTrip` | apps/web-app/src/app/api/feedback/route.ts:27-28 | for every i < 4, the route's `indexOf` of the page's i-th label is i |
| `ProofsPage.ChooseRelay` | apps/web-app/src/app/proofs/page.tsx:60-112 | webhook exactly when its URL is set; otherwise Gelato exactly when endpoint, chain id and API key are all set; otherwise the local API; each strategy carries the configured values |
| `ProofsPage.WebhookTakesPriority` | apps/web-app/src/app/proofs/page.tsx:60 | a set webhook URL wins whatever the Gelato settings are |
| `ProofsPage.IncompleteGelatoFallsBack` | apps/web-app/src/app/proofs/page.tsx:75-79 | without a webhook, any missing Gelato setting selects the local API |
| `ProofsPage.SuccessStatus` | apps/web-app/src/app/proofs/page.tsx:72-74 | success is 201 exactly on the Gelato path and 200 on the other two |
| `ProofsPage.Accepted` | apps/web-app/src/app/proofs/page.tsx:72-111 | a reply counts as success only if it is a status, 201 on the Gelato path and 200 on the other two |
| `ProofsPage.OnlyTheSuccessCodeSends` | apps/web-app/src/app/proofs/page.tsx:93-95 | a thrown reply or a status other than the path's own code (503, say) leaves the vote unsent; 201 sends only via Gelato, 200 only via the others |
| `ProofsPage.VoteMessage` | apps/web-app/src/app/proofs/page.tsx:47-48 | the proof message of an offered label is its catalog index and names it; an unoffered label gives -1 |
| `ProofsPage.MessageInRange` | apps/web-app/src/app/proofs/page.tsx:24 | every offered label encodes to a message in [0, 4) |
| `ProofsPage.RelayRequest` | apps/web-app/src/app/proofs/page.tsx:58-106 | the request matches the strategy; the webhook and Gelato requests name `castVote` and the configured contract with `[depth, root, nullifier, message, points]` in that order; the local API request carries the label and the proof fields |
| `ProofsPage.Attempt` | apps/web-app/src/app/proofs/page.tsx:60-107 | the request that actually leaves is the one built for the chosen path, and only the webhook path can fail to send one (when `JSON.stringify` of its body throws before `fetch`) |
| `ProofsPage.AsWrittenWebhookNeverSends` | apps/web-app/src/app/proofs/page.tsx:48-69 | with the BigInt message, no webhook request ever leaves the page; the Gelato and local paths send their request unchanged |
| `ProofsPage.CorrectedRequestAlwaysLeaves` | apps/web-app/src/app/proofs/page.tsx:58-112 | with the message as a JSON number, every path sends exactly the request built for it |
| `ProofsPage.WebhookVoteAsWritten` | apps/web-app/src/app/proofs/page.tsx:60-74 | the page as written, webhook configured, proof produced: vote list and selection unchanged, nothing sent, error line logged, loading off, whatever the reply |
| `ProofsPage.WebhookVoteCorrected` | apps/web-app/src/app/proofs/page.tsx:60-74 | corrected body and a 200 reply: one webhook request carrying the message, the label appended and shown first, selection cleared, success line logged, loading off |
| `ProofsPage.Reverse` | apps/web-app/src/app/proofs/page.tsx:32 | the reversed copy keeps the length and starts with the last (newest) vote |
| `ProofsPage.ReverseAt` | apps/web-app/src/app/proofs/page.tsx:32 | the reversed list has the same length and element i is element len-1-i of the list |
| `ProofsPage.ReverseAppend` | apps/web-app/src/app/proofs/page.tsx:32 | a vote appended to the list is shown first |
| `ProofsPage.ReverseInvolutive` | apps/web-app/src/app/proofs/page.tsx:32 | reversing the view gives the list back |
| `ProofsPage.Page.constructor` | apps/web-app/src/app/proofs/page.tsx:18-21 | a page holds the context's votes and a selection (`""` at first, or a choice already made in the option list), not loading and nothing sent |
| `ProofsPage.Page.Displayed` | apps/web-app/src/app/proofs/page.tsx:32 | the displayed list has the vote list's length and holds it newest first |
| `ProofsPage.Page.Fetch` | apps/web-app/src/app/proofs/page.tsx:61-107 | a request is issued only while the page is loading, and is appended to what the page has sent |
| `ProofsPage.Page.Relay` | apps/web-app/src/app/proofs/page.tsx:57-112 | the relay chain sends exactly the request `Attempt` gives (or none), while loading, and reports the vote sent exactly when a request left and the reply is the path's success code |
| `ProofsPage.Page.CastVote` | apps/web-app/src/app/proofs/page.tsx:34-129 | without identity or selection nothing changes and nothing is sent; otherwise at most one request, for the chosen path, is sent, only while loading: none if proving throws or the webhook body fails to serialise; the vote counts as sent exactly when that request left and the reply is the path's success code; then the label is appended, the selection cleared and the success line logged, else only the error line is logged; loading ends false |
| `FeedbackRoute.ProviderFor` | apps/web-app/src/app/api/feedback/route.ts:15-18 | the local node at 127.0.0.1:8545 exactly when the network is `"localhost"`, Infura with the configured network and key otherwise |
| `FeedbackRoute.ResolveOption` | apps/web-app/src/app/api/feedback/route.ts:27-32 | -1 exactly for a missing or unknown label; otherwise the label's index in the route's catalog |
| `FeedbackRoute.Post` | apps/web-app/src/app/api/feedback/route.ts:5-46 | no key: throws before the body is read; body not JSON: throws; every answer is 200 or 500; 200 exactly when the key is set, the label is known and the transaction is confirmed; a `castVote` call is made exactly when the key is set and the label is known (it may still reject before anything is broadcast) |
| `FeedbackRoute.SubmissionPassesThrough` | apps/web-app/src/app/api/feedback/route.ts:20-34 | the `castVote` call carries depth, root, nullifier and points from the body unchanged, the label's index as vote option, the selected provider and the configured contract |
| `FeedbackRoute.UnknownLabelRejected` | apps/web-app/src/app/api/feedback/route.ts:28-31 | an unknown or missing label is answered with 500 and no transaction |
| `FeedbackRoute.UnconfirmedIsServerError` | apps/web-app/src/app/api/feedback/route.ts:34-45 | a rejected `castVote` call or a rejected confirmation is answered with 500; the call was made in both cases |
| `WebhookJson.Serializable` | apps/web-app/src/app/proofs/page.tsx:64 | `JSON.stringify` never accepts a BigInt and always accepts a number or a string |
| `WebhookJson.WebhookBody` | apps/web-app/src/app/proofs/page.tsx:64-69 | the webhook body holds the ABI first, the address exactly when one is configured, then the function name and the parameter list |
| `WebhookJson.AsWrittenBodyCannotBeSent` | apps/web-app/src/app/proofs/page.tsx:48-69 | as written, the webhook body holds the BigInt message, so serialising it throws for every proof, address and ABI |
| `WebhookJson.CorrectedBodySerializes` | apps/web-app/src/app/proofs/page.tsx:64-69 | with the message as a JSON number the body always serialises and still carries the message at parameter position 3 |
| `EndToEnd.HttpStatus` | apps/web-app/src/app/api/feedback/route.ts:6-8 | an error the route throws reaches the page as 500; 200 only from a 200 answer |
| `EndToEnd.EveryPathSubmitsTheProvenMessage` | apps/web-app/src/app/proofs/page.tsx:47-112 | with the corrected webhook body, on every path, for every offered label, the page's request leaves and the ledger is asked (`castVote` is called) with the proof's fields unchanged and as vote option the message bound into the proof, which names the label; through the local API this is the route's own resolution, through the relays it rests on their forwarding the parameters |
| `EndToEnd.LocalApiSentIff` | apps/web-app/src/app/proofs/page.tsx:97-111 | when the configuration selects the local API, the page counts the vote sent exactly when the route has its key, the label is offered and the transaction is confirmed |
| `EndToEnd.UnknownLabelNeverSentLocally` | apps/web-app/src/app/api/feedback/route.ts:28-31 | for a label the page does not offer, the route makes no `castVote` call through the local API and the page keeps the vote unsent |

## Left out

- Proof generation and the group's Merkle tree (`generateProof`, `Group`): an external proving library, taken as the function parameter `prove`; the model observes only whether it throws and the record it returns (depth, root, nullifier, points), which is forwarded into the request.
- `fetch`, JSON parsing of the route's body, ABI encoding (`encodeFunctionData`, kept as the call's name and arguments), `Wallet`, `Contract` and the providers: network and library calls, replaced by the reply, body and `TxOutcome` inputs.
- `FeedbackRoute.Post`: the construction of the provider and of the `Wallet` (route.ts lines 15-20, outside the try block) is taken never to throw; a network name the `InfuraProvider` does not know, or a private key `Wallet` refuses, would make the real handler throw before reading the body, while the model goes on and may submit and answer 200.
- `EndToEnd.LedgerArgs`: the webhook relay and the Gelato relay are taken to call the ledger's `castVote` with exactly the parameters `[depth, root, nullifier, message, points]` they were given; their services are not part of this model, so on those two paths `EndToEnd.EveryPathSubmitsTheProvenMessage` rests on that assumption.
- `ProofsPage.Page.CastVote`: outside the page-level statements about the as-written page (`ProofsPage.WebhookVoteAsWritten`, `ProofsPage.AsWrittenWebhookNeverSends`) the rest of the model uses the corrected webhook body, the message as a JSON number.
- `ProofsPage.ChooseRelay`: `Config` lets the Gelato API key be set, but the page reads it from `GELATO_RELAYER_API_KEY`, without the `NEXT_PUBLIC_` prefix, inside client code; Next.js documents that only `NEXT_PUBLIC_` variables reach browser code, so in a browser build the Gelato branch is presumably never taken. The model keeps the configuration free and does not encode the framework's rule.
- The option list's `onChange` (page.tsx line 176) is UI; the selection a `Page` is built with stands for a choice already made there.
- `FeedbackRoute.Post`: the text of the responses (`"Success"`, `"Server error: …"`) and the route's `console.error` are not modelled, only the status codes and the one `castVote` call.
- `ProofsPage.Page.CastVote`: the `console.error(error)` of the page's catch branch (page.tsx line 123) is not modelled; only the log line shown to the user is.
- `addFeedback` belongs to the shared Semaphore context, which is not part of this model; it is taken to append the label to the vote list.
- The React machinery (hooks, memoisation, re-renders, the asynchronous timing of state updates), the page's rendering, navigation and the effect that logs how many votes were retrieved: UI.
- The `"Casting your anonymous vote..."` log line is written and then overwritten within the same call; the model keeps only the final log line.
- The ledger contract (nullifier uniqueness, tallies, whether voting is open): its source is not part of this model; only the arguments `castVote` is called with are stated, not whether the call reverts (modelled as the `CallThrew` input).
- The Hardhat tasks under `apps/contracts/tasks/`: deployment and query scripts.
- Concurrent submissions: ordered by the chain, not by this code.

## Findings

| source | as written | input that shows it | evidently intended | confidence | as-written member | corrected member |
|---|---|---|---|---|---|---|
| apps/web-app/src/app/proofs/page.tsx:48-69 | `message` is the BigInt returned by `ethers.toBigInt` and is placed in `functionParameters`, which `JSON.stringify` serialises; ECMA-262's SerializeJSONProperty throws a TypeError for a BigInt | any call with the webhook URL set, e.g. label "Option A" and any proof: the body cannot be built, the catch branch logs the error and no webhook request is sent | the message sent as a JSON number (or string), so the webhook is reached and judged by its 200 | medium (assumes nothing in the app defines `BigInt.prototype.toJSON`); not executed | `ProofsPage.WebhookVoteAsWritten` | `ProofsPage.CorrectedRequestAlwaysLeaves` |

`ProofsPage.Page.CastVote` serialises the webhook body
(`WebhookJson.WebhookBody`) before it sends anything, and takes the message's
encoding as a parameter. With `BigIntMessage` it behaves as the page is
written; `ProofsPage.WebhookVoteAsWritten` runs it that way, and
`WebhookJson.AsWrittenBodyCannotBeSent` is the serialisation fact beneath
it. With `NumberMessage` it behaves as intended; `ProofsPage.WebhookVoteCorrected`
runs it that way, and `WebhookJson.CorrectedBodySerializes` is the fact
beneath it. The cross-file lemmas in `EndToEnd` use the corrected body.
