/** The voting page: how `castVote` encodes the selected option, picks one
    relay for the proof, judges the relay's reply and updates the page's
    state, and the newest-first view of the votes cast so far. */
module ProofsPage {
  import opened Protocol
  import VoteCatalog
  import WebhookJson

  /** The environment the page reads: the managed-relayer webhook, the three
      Gelato settings, the ledger contract's address and the group id. */
  datatype Config = Config(
    autotaskWebhook: Option<string>,
    gelatoEndpoint: Option<string>,
    gelatoChainId: Option<string>,
    gelatoApiKey: Option<string>,
    contractAddress: Option<string>,
    groupId: Option<string>)

  /** JavaScript truthiness of an environment variable: set and not empty. */
  predicate Truthy(v: Option<string>)
  {
    v.Some? && v.value != ""
  }

  /** The one delivery path a call uses. */
  datatype RelayStrategy =
    | Webhook(url: string)
    | Gelato(endpoint: string, chainId: string, apiKey: string)
    | LocalApi

  /** The route the page's configuration selects: the webhook when its URL
      is set, otherwise Gelato when endpoint, chain id and API key are all
      set, otherwise the page's own API. */
  function ChooseRelay(cfg: Config): (s: RelayStrategy)
    ensures s.Webhook? <==> Truthy(cfg.autotaskWebhook)
    ensures s.Webhook? ==> cfg.autotaskWebhook == Some(s.url)
    ensures s.Gelato? <==>
      !Truthy(cfg.autotaskWebhook) &&
      Truthy(cfg.gelatoEndpoint) && Truthy(cfg.gelatoChainId) && Truthy(cfg.gelatoApiKey)
    ensures s.Gelato? ==>
      cfg.gelatoEndpoint == Some(s.endpoint) && cfg.gelatoChainId == Some(s.chainId) &&
      cfg.gelatoApiKey == Some(s.apiKey)
    ensures s.LocalApi? <==>
      !Truthy(cfg.autotaskWebhook) &&
      !(Truthy(cfg.gelatoEndpoint) && Truthy(cfg.gelatoChainId) && Truthy(cfg.gelatoApiKey))
  {
    if Truthy(cfg.autotaskWebhook) then Webhook(cfg.autotaskWebhook.value)
    else if Truthy(cfg.gelatoEndpoint) && Truthy(cfg.gelatoChainId) && Truthy(cfg.gelatoApiKey) then
      Gelato(cfg.gelatoEndpoint.value, cfg.gelatoChainId.value, cfg.gelatoApiKey.value)
    else LocalApi
  }

  /** A configured webhook wins whatever the Gelato settings say. */
  lemma WebhookTakesPriority(cfg: Config, url: string)
    requires url != ""
    ensures ChooseRelay(cfg.(autotaskWebhook := Some(url))) == Webhook(url)
  {
  }

  /** Without a webhook, leaving out any one Gelato setting sends the vote
      through the page's own API. */
  lemma IncompleteGelatoFallsBack(cfg: Config)
    requires !Truthy(cfg.autotaskWebhook)
    requires !Truthy(cfg.gelatoEndpoint) || !Truthy(cfg.gelatoChainId) || !Truthy(cfg.gelatoApiKey)
    ensures ChooseRelay(cfg) == LocalApi
  {
  }

  /** What a relay's `fetch` produced: an HTTP status, or a thrown error. */
  datatype Reply = Status(code: int) | Threw

  /** The status that counts as success on each path. */
  function SuccessStatus(s: RelayStrategy): (code: int)
    ensures code == 201 <==> s.Gelato?
    ensures code == 200 <==> !s.Gelato?
  {
    match s
    case Webhook(_) => 200
    case Gelato(_, _, _) => 201
    case LocalApi => 200
  }

  /** Whether the page treats the reply as "vote sent". */
  predicate Accepted(s: RelayStrategy, reply: Reply)
    ensures Accepted(s, reply) ==> reply.Status? && (reply.code == 200 || reply.code == 201)
    ensures Accepted(s, reply) && s.Gelato? ==> reply.code == 201
    ensures Accepted(s, reply) && !s.Gelato? ==> reply.code == 200
  {
    reply.Status? && reply.code == SuccessStatus(s)
  }

  /** A thrown error, or any status other than the path's own success code,
      leaves the vote unsent; e.g. a webhook answering 503. */
  lemma OnlyTheSuccessCodeSends(s: RelayStrategy, reply: Reply)
    ensures Accepted(s, reply) ==> reply.Status?
    ensures reply == Status(503) ==> !Accepted(s, reply)
    ensures Accepted(s, Status(201)) <==> s.Gelato?
    ensures Accepted(s, Status(200)) <==> !s.Gelato?
  {
  }

  /** The proof message for a selected label: its index in the page's
      catalog, converted to an integer as it is (-1 when the label is not
      offered). */
  function VoteMessage(vote: string): (m: int)
    ensures vote in VoteCatalog.ClientOptions ==>
      0 <= m < |VoteCatalog.ClientOptions| && VoteCatalog.ClientOptions[m] == vote
    ensures vote !in VoteCatalog.ClientOptions ==> m == -1
  {
    VoteCatalog.IndexOf(VoteCatalog.ClientOptions, vote)
  }

  /** Every label the page offers encodes to a message in [0, 4). */
  lemma MessageInRange(vote: string)
    requires vote in VoteCatalog.ClientOptions
    ensures 0 <= VoteMessage(vote) < 4
  {
  }

  /** The `params` tuple handed to every relay. */
  function RelayParams(p: ZkProof, message: int): CastVoteArgs
  {
    CastVoteArgs(p.merkleTreeDepth, p.merkleTreeRoot, p.nullifier, message, p.points)
  }

  /** ABI-encoded call data, kept as the function name and its arguments. */
  datatype EncodedCall = EncodedCall(functionName: string, args: CastVoteArgs)

  /** The one request a call to `castVote` issues. */
  datatype Request =
    | WebhookPost(url: string, address: Option<string>, functionName: string, functionParameters: CastVoteArgs)
    | GelatoPost(url: string, chainId: string, target: Option<string>, data: EncodedCall, sponsorApiKey: string)
    | LocalPost(url: string, body: FeedbackBody)

  /** The request built for the chosen path: it goes where the strategy
      says; the two relays that reach the ledger directly are asked to call
      `castVote` with the proof's public inputs, the message and the points,
      in that order; the local API gets the label and the same proof fields
      instead. */
  function RelayRequest(s: RelayStrategy, cfg: Config, vote: string, p: ZkProof, message: int): (r: Request)
    ensures (s.Webhook? <==> r.WebhookPost?) && (s.Gelato? <==> r.GelatoPost?) && (s.LocalApi? <==> r.LocalPost?)
    ensures r.WebhookPost? ==>
      (r.url == s.url && r.functionName == "castVote" && r.address == cfg.contractAddress &&
       r.functionParameters == CastVoteArgs(p.merkleTreeDepth, p.merkleTreeRoot, p.nullifier, message, p.points))
    ensures r.GelatoPost? ==>
      (r.url == s.endpoint && r.chainId == s.chainId && r.sponsorApiKey == s.apiKey && r.target == cfg.contractAddress &&
       r.data == EncodedCall("castVote", CastVoteArgs(p.merkleTreeDepth, p.merkleTreeRoot, p.nullifier, message, p.points)))
    ensures r.LocalPost? ==>
      (r.url == "api/feedback" && r.body.feedback == Some(vote) &&
       r.body.merkleTreeDepth == p.merkleTreeDepth && r.body.merkleTreeRoot == p.merkleTreeRoot &&
       r.body.nullifier == p.nullifier && r.body.points == p.points)
  {
    match s
    case Webhook(url) => WebhookPost(url, cfg.contractAddress, "castVote", RelayParams(p, message))
    case Gelato(endpoint, chainId, apiKey) =>
      GelatoPost(endpoint, chainId, cfg.contractAddress, EncodedCall("castVote", RelayParams(p, message)), apiKey)
    case LocalApi =>
      LocalPost("api/feedback", FeedbackBody(Some(vote), p.merkleTreeDepth, p.merkleTreeRoot, p.nullifier, p.points))
  }

  /** The request that actually leaves the page, if any: on the webhook path
      the body must first survive `JSON.stringify`, whose TypeError lands in
      the catch branch before `fetch` runs. `abi` is the contract artifact's
      ABI; `enc` is how the message sits in the webhook body. */
  function Attempt(cfg: Config, abi: WebhookJson.Json, enc: WebhookJson.MessageEncoding,
                   vote: string, p: ZkProof, message: int): (r: Option<Request>)
    ensures r.Some? ==> r.value == RelayRequest(ChooseRelay(cfg), cfg, vote, p, message)
    ensures r.None? ==> ChooseRelay(cfg).Webhook?
  {
    var s := ChooseRelay(cfg);
    if s.Webhook? &&
       !WebhookJson.Serializable(WebhookJson.WebhookBody(enc, abi, cfg.contractAddress, "castVote", RelayParams(p, message)))
    then None
    else Some(RelayRequest(s, cfg, vote, p, message))
  }

  /** As written (the message a BigInt), no webhook request ever leaves the
      page; the Gelato and local paths are unaffected. */
  lemma AsWrittenWebhookNeverSends(cfg: Config, abi: WebhookJson.Json, vote: string, p: ZkProof, message: int)
    ensures ChooseRelay(cfg).Webhook? ==> Attempt(cfg, abi, WebhookJson.BigIntMessage, vote, p, message) == None
    ensures !ChooseRelay(cfg).Webhook? ==>
      Attempt(cfg, abi, WebhookJson.BigIntMessage, vote, p, message) == Some(RelayRequest(ChooseRelay(cfg), cfg, vote, p, message))
  {
    WebhookJson.AsWrittenBodyCannotBeSent(abi, cfg.contractAddress, "castVote", RelayParams(p, message));
  }

  /** With the message as a number, every path sends exactly the request
      built for it. */
  lemma CorrectedRequestAlwaysLeaves(cfg: Config, abi: WebhookJson.Json, vote: string, p: ZkProof, message: int)
    requires WebhookJson.Serializable(abi)
    ensures Attempt(cfg, abi, WebhookJson.NumberMessage, vote, p, message) == Some(RelayRequest(ChooseRelay(cfg), cfg, vote, p, message))
  {
    WebhookJson.CorrectedBodySerializes(abi, cfg.contractAddress, "castVote", RelayParams(p, message));
  }

  /** `[...xs].reverse()`. */
  function Reverse(xs: seq<string>): (r: seq<string>)
    ensures |r| == |xs|
    ensures |xs| > 0 ==> r[0] == xs[|xs| - 1]
  {
    if |xs| == 0 then [] else [xs[|xs| - 1]] + Reverse(xs[..|xs| - 1])
  }

  /** The reversed list has the same length and holds element `len-1-i` at `i`. */
  lemma {:induction false} ReverseAt(xs: seq<string>)
    ensures |Reverse(xs)| == |xs|
    ensures forall i :: 0 <= i < |xs| ==> Reverse(xs)[i] == xs[|xs| - 1 - i]
  {
    if |xs| > 0 {
      var init := xs[..|xs| - 1];
      ReverseAt(init);
      forall i | 0 <= i < |xs| ensures Reverse(xs)[i] == xs[|xs| - 1 - i] {
        if i > 0 {
          assert Reverse(xs)[i] == Reverse(init)[i - 1];
        }
      }
    }
  }

  /** A vote appended to the list shows up first in the view. */
  lemma ReverseAppend(xs: seq<string>, x: string)
    ensures Reverse(xs + [x]) == [x] + Reverse(xs)
  {
  }

  /** Reversing the view gives the list back. */
  lemma {:induction false} ReverseInvolutive(xs: seq<string>)
    ensures Reverse(Reverse(xs)) == xs
  {
    ReverseAt(xs);
    ReverseAt(Reverse(xs));
  }

  const CastingLog: string := "Casting your anonymous vote..."
  const ErrorLog: string := "Some error occurred, please try again!"

  function SuccessLog(vote: string): string
  {
    "Your vote for \"" + vote + "\" has been cast anonymously 🎉"
  }

  /** The page's state: the votes cast so far (the shared context's
      `_feedback`), the selected label, the loading flag, the log line, and
      the requests sent to the network so far. */
  class Page {
    var feedback: seq<string>
    var selected: string
    var loading: bool
    var log: string
    var outbox: seq<Request>

    constructor (votes: seq<string>, selection: string)
      ensures feedback == votes && selected == selection
      ensures !loading && log == "" && outbox == []
    {
      feedback := votes;
      selected := selection;
      loading := false;
      log := "";
      outbox := [];
    }

    /** The votes as displayed, newest first. */
    function Displayed(): (d: seq<string>)
      reads this
      ensures |d| == |feedback|
      ensures forall i :: 0 <= i < |d| ==> d[i] == feedback[|feedback| - 1 - i]
    {
      ReverseAt(feedback);
      Reverse(feedback)
    }

    /** `fetch`: the request leaves while the page shows itself busy. */
    method Fetch(req: Request)
      requires loading
      modifies this`outbox
      ensures outbox == old(outbox) + [req]
    {
      outbox := outbox + [req];
    }

    /** The relay chain inside `castVote`'s try block: the one request the
        configuration selects, and whether its reply counts as success. A
        thrown error (from `JSON.stringify` or from `fetch`) leaves the vote
        unsent, as the catch branch does. */
    method Relay(cfg: Config, abi: WebhookJson.Json, enc: WebhookJson.MessageEncoding,
                 vote: string, p: ZkProof, message: int, reply: Reply) returns (voteSent: bool)
      requires loading
      modifies this`outbox
      ensures var request := Attempt(cfg, abi, enc, vote, p, message);
        outbox == old(outbox) + (if request.Some? then [request.value] else []) &&
        voteSent == (request.Some? && Accepted(ChooseRelay(cfg), reply))
    {
      voteSent := false;
      var params := CastVoteArgs(p.merkleTreeDepth, p.merkleTreeRoot, p.nullifier, message, p.points);
      if Truthy(cfg.autotaskWebhook) {
        var body := WebhookJson.WebhookBody(enc, abi, cfg.contractAddress, "castVote", params);
        if WebhookJson.Serializable(body) {
          Fetch(WebhookPost(cfg.autotaskWebhook.value, cfg.contractAddress, "castVote", params));
          if reply.Status? && reply.code == 200 {
            voteSent := true;
          }
        }
      } else if Truthy(cfg.gelatoEndpoint) && Truthy(cfg.gelatoChainId) && Truthy(cfg.gelatoApiKey) {
        Fetch(GelatoPost(cfg.gelatoEndpoint.value, cfg.gelatoChainId.value, cfg.contractAddress,
                         EncodedCall("castVote", params), cfg.gelatoApiKey.value));
        if reply.Status? && reply.code == 201 {
          voteSent := true;
        }
      } else {
        Fetch(LocalPost("api/feedback", FeedbackBody(Some(vote), p.merkleTreeDepth, p.merkleTreeRoot, p.nullifier, p.points)));
        if reply.Status? && reply.code == 200 {
          voteSent := true;
        }
      }
    }

    /** One press of "Cast Vote". `prove` stands for the proving library
        (`None` when it throws), `abi` for the contract artifact's ABI, `enc`
        for how the message sits in the webhook body (`BigIntMessage` as the
        page writes it, `NumberMessage` corrected) and `reply` for what the one
        relay request comes back with. */
    method CastVote(identity: Option<Identity>, members: seq<int>, cfg: Config,
                    prove: ProofInput -> Option<ZkProof>, abi: WebhookJson.Json,
                    enc: WebhookJson.MessageEncoding, reply: Reply)
      modifies this
      ensures identity.None? || old(selected) == "" ==>
        feedback == old(feedback) && selected == old(selected) && loading == old(loading) &&
        log == old(log) && outbox == old(outbox)
      ensures identity.Some? && old(selected) != "" ==>
        var vote := old(selected);
        var message := VoteMessage(vote);
        var proof := prove(ProofInput(identity.value, members, message, cfg.groupId));
        var request := if proof.Some? then Attempt(cfg, abi, enc, vote, proof.value, message) else None;
        var sent := request.Some? && Accepted(ChooseRelay(cfg), reply);
        !loading &&
        outbox == old(outbox) + (if request.Some? then [request.value] else []) &&
        feedback == (if sent then old(feedback) + [vote] else old(feedback)) &&
        selected == (if sent then "" else vote) &&
        log == (if sent then SuccessLog(vote) else ErrorLog)
    {
      if identity.None? || selected == "" {
        return;
      }
      loading := true;
      log := CastingLog;
      var vote := selected;
      var message := VoteCatalog.IndexOf(VoteCatalog.ClientOptions, vote);
      var proof := prove(ProofInput(identity.value, members, message, cfg.groupId));
      if proof.None? {
        // generateProof threw: the catch branch
        log := ErrorLog;
      } else {
        var p := proof.value;
        var voteSent := Relay(cfg, abi, enc, vote, p, message, reply);
        if voteSent {
          feedback := feedback + [vote];
          log := SuccessLog(vote);
          selected := "";
        } else {
          log := ErrorLog;
        }
      }
      loading := false;
    }
  }

  /** The page as written, with the webhook configured and a proof produced:
      whatever the webhook would have answered, the vote list and the
      selection stay as they were, nothing is sent, the error line is logged
      and loading ends. */
  method WebhookVoteAsWritten(votes: seq<string>, vote: string, cfg: Config, id: Identity, members: seq<int>,
                              prove: ProofInput -> Option<ZkProof>, abi: WebhookJson.Json, reply: Reply)
    returns (page: Page)
    requires vote != ""
    requires Truthy(cfg.autotaskWebhook)
    requires prove(ProofInput(id, members, VoteMessage(vote), cfg.groupId)).Some?
    ensures page.feedback == votes && page.selected == vote
    ensures page.outbox == [] && !page.loading && page.log == ErrorLog
  {
    page := new Page(votes, vote);
    var p := prove(ProofInput(id, members, VoteMessage(vote), cfg.groupId)).value;
    AsWrittenWebhookNeverSends(cfg, abi, vote, p, VoteMessage(vote));
    page.CastVote(Some(id), members, cfg, prove, abi, WebhookJson.BigIntMessage, reply);
  }

  /** The same press with the corrected body and a webhook answering 200:
      the one webhook request is sent, the label is appended and shown first,
      the selection is cleared and the success line is logged. */
  method WebhookVoteCorrected(votes: seq<string>, vote: string, cfg: Config, id: Identity, members: seq<int>,
                              prove: ProofInput -> Option<ZkProof>, abi: WebhookJson.Json)
    returns (page: Page)
    requires vote != ""
    requires Truthy(cfg.autotaskWebhook)
    requires prove(ProofInput(id, members, VoteMessage(vote), cfg.groupId)).Some?
    requires WebhookJson.Serializable(abi)
    ensures page.feedback == votes + [vote] && page.selected == "" && page.Displayed()[0] == vote
    ensures !page.loading && page.log == SuccessLog(vote)
    ensures |page.outbox| == 1 && page.outbox[0].WebhookPost? &&
      page.outbox[0].url == cfg.autotaskWebhook.value &&
      page.outbox[0].functionParameters.voteOption == VoteMessage(vote)
  {
    page := new Page(votes, vote);
    var p := prove(ProofInput(id, members, VoteMessage(vote), cfg.groupId)).value;
    CorrectedRequestAlwaysLeaves(cfg, abi, vote, p, VoteMessage(vote));
    page.CastVote(Some(id), members, cfg, prove, abi, WebhookJson.NumberMessage, Status(200));
    ReverseAppend(votes, vote);
  }
}
