/** Values that travel between the voting page, the feedback API route and
    the proving library. The ledger and the proving library themselves are
    not modelled; only the shapes of what is handed to them. */
module Protocol {

  /** An optional value: an unset environment variable, a thrown error, a
      missing JSON field. */
  datatype Option<+T> = None | Some(value: T)

  /** The holder's Semaphore identity; only its secret matters here. */
  datatype Identity = Identity(secret: int)

  /** What the page hands to the proving library (`generateProof`): the
      identity, the group's member commitments, the message bound into the
      proof and the group id used as scope. */
  datatype ProofInput = ProofInput(identity: Identity, members: seq<int>, message: int, scope: Option<string>)

  /** What the proving library returns: the public inputs and the packed
      Groth16 points. */
  datatype ZkProof = ZkProof(merkleTreeDepth: int, merkleTreeRoot: int, nullifier: int, points: seq<int>)

  /** The argument tuple of the ledger's `castVote`, in the order of its ABI:
      depth, root, nullifier, vote option (the proof message), points. */
  datatype CastVoteArgs = CastVoteArgs(merkleTreeDepth: int, merkleTreeRoot: int, nullifier: int, voteOption: int, points: seq<int>)

  /** The JSON body of `POST api/feedback`. `feedback` is `None` when the
      field is absent or not a string. */
  datatype FeedbackBody = FeedbackBody(feedback: Option<string>, merkleTreeDepth: int, merkleTreeRoot: int, nullifier: int, points: seq<int>)
}
