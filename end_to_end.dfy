/** What the page and the route guarantee together: whichever path the page
    takes, the ledger is asked to record the index the page bound into the
    proof. */
module EndToEnd {
  import opened Protocol
  import VoteCatalog
  import ProofsPage
  import FeedbackRoute
  import WebhookJson

  /** The HTTP status the page sees from the route; an error thrown outside
      the route's try block is answered by the framework with 500. */
  function HttpStatus(o: FeedbackRoute.Outcome): (code: int)
    ensures o.Thrown? ==> code == 500
    ensures code == 200 <==> o.Responded? && o.status == 200
  {
    match o
    case Thrown(_) => 500
    case Responded(status, _) => status
  }

  /** The arguments `castVote` is called with for a request: the relays
      forward the page's parameters, the local API rebuilds them in the route.
      `None` when no `castVote` call is made. Whether the ledger then accepts
      the call is not modelled. */
  function LedgerArgs(r: ProofsPage.Request, env: FeedbackRoute.Env, tx: FeedbackRoute.TxOutcome): Option<CastVoteArgs>
  {
    match r
    case WebhookPost(_, _, _, params) => Some(params)
    case GelatoPost(_, _, _, data, _) => Some(data.args)
    case LocalPost(_, body) =>
      var o := FeedbackRoute.Post(env, Some(body), tx);
      if o.Responded? && o.submitted.Some? then Some(o.submitted.value.args) else None
  }

  /** The cross-file property: for every label the page offers, and whichever
      path the configuration chooses, the request the page sends (with the
      corrected webhook body) makes the ledger receive the proof's public
      inputs and points unchanged and, as vote option, exactly the message the
      page bound into the proof, which names the selected label. */
  lemma EveryPathSubmitsTheProvenMessage(cfg: ProofsPage.Config, abi: WebhookJson.Json, vote: string, p: ZkProof,
                                         env: FeedbackRoute.Env, tx: FeedbackRoute.TxOutcome)
    requires vote in VoteCatalog.ClientOptions
    requires WebhookJson.Serializable(abi)
    requires env.privateKey.Some?
    ensures var message := ProofsPage.VoteMessage(vote);
      var sent := ProofsPage.Attempt(cfg, abi, WebhookJson.NumberMessage, vote, p, message);
      sent.Some? &&
      LedgerArgs(sent.value, env, tx) == Some(CastVoteArgs(p.merkleTreeDepth, p.merkleTreeRoot, p.nullifier, message, p.points))
    ensures VoteCatalog.ClientOptions[ProofsPage.VoteMessage(vote)] == vote
  {
    ProofsPage.CorrectedRequestAlwaysLeaves(cfg, abi, vote, p, ProofsPage.VoteMessage(vote));
  }

  /** Through the local API, the page counts the vote as sent exactly when
      the route had its private key, knew the label and saw the transaction
      confirmed. */
  lemma LocalApiSentIff(cfg: ProofsPage.Config, vote: string, p: ZkProof,
                        env: FeedbackRoute.Env, tx: FeedbackRoute.TxOutcome)
    requires ProofsPage.ChooseRelay(cfg).LocalApi?
    ensures var s := ProofsPage.ChooseRelay(cfg);
      var r := ProofsPage.RelayRequest(s, cfg, vote, p, ProofsPage.VoteMessage(vote));
      r.LocalPost? &&
      (ProofsPage.Accepted(s, ProofsPage.Status(HttpStatus(FeedbackRoute.Post(env, Some(r.body), tx))))
       <==> env.privateKey.Some? && vote in VoteCatalog.ClientOptions && tx == FeedbackRoute.Confirmed)
  {
  }

  /** A label the page does not offer never reaches the ledger through the
      local API: the route answers 500 and the page keeps the vote unsent. */
  lemma UnknownLabelNeverSentLocally(cfg: ProofsPage.Config, vote: string, p: ZkProof,
                                     env: FeedbackRoute.Env, tx: FeedbackRoute.TxOutcome)
    requires vote !in VoteCatalog.ClientOptions
    ensures var r := ProofsPage.RelayRequest(ProofsPage.LocalApi, cfg, vote, p, ProofsPage.VoteMessage(vote));
      LedgerArgs(r, env, tx) == None &&
      !ProofsPage.Accepted(ProofsPage.LocalApi, ProofsPage.Status(HttpStatus(FeedbackRoute.Post(env, Some(r.body), tx))))
  {
  }
}
