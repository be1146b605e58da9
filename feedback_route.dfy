/** The `POST api/feedback` handler: the backend signs and submits the vote
    itself after turning the label back into a catalog index. */
module FeedbackRoute {
  import opened Protocol
  import VoteCatalog

  /** The server's environment. */
  datatype Env = Env(
    privateKey: Option<string>,
    network: Option<string>,
    infuraApiKey: Option<string>,
    contractAddress: Option<string>)

  /** Where the signer sends its transactions. */
  datatype Provider = JsonRpc(url: string) | Infura(network: Option<string>, apiKey: Option<string>)

  const LocalRpcUrl: string := "http://127.0.0.1:8545"

  /** The provider for a network name: the local node for "localhost",
      Infura for anything else, an unset name included. */
  function ProviderFor(network: Option<string>, infuraApiKey: Option<string>): (p: Provider)
    ensures p == JsonRpc(LocalRpcUrl) <==> network == Some("localhost")
    ensures p.Infura? <==> network != Some("localhost")
    ensures p.Infura? ==> p.network == network && p.apiKey == infuraApiKey
  {
    if network == Some("localhost") then JsonRpc(LocalRpcUrl) else Infura(network, infuraApiKey)
  }

  /** How the ledger call ends: `contract.castVote` rejects, `wait` rejects,
      or the transaction is confirmed. */
  datatype TxOutcome = CallThrew | WaitThrew | Confirmed

  /** A `contract.castVote` call the handler made, with the provider and
      contract address it went through. The call may still reject before
      anything is broadcast (`CallThrew`). */
  datatype Submission = Submission(provider: Provider, contract: Option<string>, args: CastVoteArgs)

  /** What the handler does: throw outside its try block, or answer with a
      status, having made at most one `castVote` call. */
  datatype Outcome =
    | Thrown(cause: Failure)
    | Responded(status: int, submitted: Option<Submission>)

  /** Why the handler throws before its try block: no private key in the
      environment, or a request body that is not JSON. */
  datatype Failure = MissingPrivateKey | BodyNotJson

  /** The vote option the handler resolves a label to: its index in the
      route's catalog, -1 for a missing or unknown label. */
  function ResolveOption(feedback: Option<string>): (i: int)
    ensures i == -1 <==> feedback.None? || feedback.value !in VoteCatalog.ServerOptions
    ensures i != -1 ==> 0 <= i < |VoteCatalog.ServerOptions| && VoteCatalog.ServerOptions[i] == feedback.value
  {
    if feedback.None? then -1 else VoteCatalog.IndexOf(VoteCatalog.ServerOptions, feedback.value)
  }

  /** The handler. `body` is `None` when `req.json()` rejects; `tx` is how
      the ledger call ends if it is made. */
  function Post(env: Env, body: Option<FeedbackBody>, tx: TxOutcome): (r: Outcome)
    ensures env.privateKey.None? ==> r == Thrown(MissingPrivateKey)
    ensures env.privateKey.Some? && body.None? ==> r == Thrown(BodyNotJson)
    ensures r.Responded? ==> r.status == 200 || r.status == 500
    ensures r.Responded? && r.status == 200 <==>
      env.privateKey.Some? && body.Some? && body.value.feedback.Some? &&
      body.value.feedback.value in VoteCatalog.ServerOptions && tx == Confirmed
    ensures r.Responded? && r.submitted.Some? <==>
      env.privateKey.Some? && body.Some? && body.value.feedback.Some? &&
      body.value.feedback.value in VoteCatalog.ServerOptions
  {
    if env.privateKey.None? then Thrown(MissingPrivateKey)
    else
      var provider := ProviderFor(env.network, env.infuraApiKey);
      if body.None? then Thrown(BodyNotJson)
      else
        var b := body.value;
        var voteOption := ResolveOption(b.feedback);
        if voteOption == -1 then Responded(500, None)
        else
          var call := Submission(provider, env.contractAddress,
            CastVoteArgs(b.merkleTreeDepth, b.merkleTreeRoot, b.nullifier, voteOption, b.points));
          if tx == Confirmed then Responded(200, Some(call)) else Responded(500, Some(call))
  }

  /** A `castVote` call the handler makes carries the body's proof fields
      unchanged, the label's catalog index as the vote option, and goes
      through the provider the network name selects to the configured
      contract. */
  lemma SubmissionPassesThrough(env: Env, body: FeedbackBody, tx: TxOutcome)
    requires Post(env, Some(body), tx).Responded?
    requires Post(env, Some(body), tx).submitted.Some?
    ensures var s := Post(env, Some(body), tx).submitted.value;
      s.args.merkleTreeDepth == body.merkleTreeDepth && s.args.merkleTreeRoot == body.merkleTreeRoot &&
      s.args.nullifier == body.nullifier && s.args.points == body.points &&
      body.feedback.Some? && VoteCatalog.ServerOptions[s.args.voteOption] == body.feedback.value &&
      s.provider == ProviderFor(env.network, env.infuraApiKey) && s.contract == env.contractAddress
  {
  }

  /** An unknown label is answered with 500 and no `castVote` call. */
  lemma UnknownLabelRejected(env: Env, body: FeedbackBody, tx: TxOutcome)
    requires env.privateKey.Some?
    requires body.feedback.None? || body.feedback.value !in VoteCatalog.ServerOptions
    ensures Post(env, Some(body), tx) == Responded(500, None)
  {
  }

  /** A failed call or a failed confirmation is answered with 500; in both
      cases the `castVote` call was made. */
  lemma UnconfirmedIsServerError(env: Env, body: FeedbackBody, tx: TxOutcome)
    requires env.privateKey.Some?
    requires body.feedback.Some? && body.feedback.value in VoteCatalog.ServerOptions
    requires tx != Confirmed
    ensures Post(env, Some(body), tx).Responded?
    ensures Post(env, Some(body), tx).status == 500
    ensures Post(env, Some(body), tx).submitted.Some?
  {
  }
}
