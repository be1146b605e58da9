/** The JSON body the page posts to the managed-relayer webhook. The page
    puts the proof message into the parameter list as a JavaScript BigInt
    (`ethers.toBigInt`), and `JSON.stringify` throws a TypeError on any
    BigInt (ECMA-262, abstract operation SerializeJSONProperty). The body as
    written can therefore never be sent; the corrected body carries the
    message as a JSON number. */
module WebhookJson {
  import opened Protocol

  /** The JavaScript values that occur in the body. The proving library's
      outputs are plain numbers or numeric strings, shown here as `Num`. */
  datatype Json =
    | Num(n: int)
    | Str(s: string)
    | BigInt(n: int)
    | Arr(items: seq<Json>)
    | Obj(keys: seq<string>, values: seq<Json>)

  /** Whether `JSON.stringify` returns instead of throwing. */
  predicate Serializable(v: Json)
    ensures Serializable(v) ==> !v.BigInt?
    ensures v.Num? || v.Str? ==> Serializable(v)
  {
    match v
    case BigInt(_) => false
    case Arr(items) => forall i :: 0 <= i < |items| ==> Serializable(items[i])
    case Obj(_, values) => forall i :: 0 <= i < |values| ==> Serializable(values[i])
    case _ => true
  }

  /** How the message sits in the parameter list: as the BigInt the page
      computes, or as a JSON number. */
  datatype MessageEncoding = BigIntMessage | NumberMessage

  /** The parameter list `[depth, root, nullifier, message, points]`. */
  function ParamsJson(enc: MessageEncoding, a: CastVoteArgs): Json
  {
    var message := if enc == BigIntMessage then BigInt(a.voteOption) else Num(a.voteOption);
    Arr([Num(a.merkleTreeDepth), Num(a.merkleTreeRoot), Num(a.nullifier), message,
         Arr(seq(|a.points|, i requires 0 <= i < |a.points| => Num(a.points[i])))])
  }

  /** The object the page serialises: the contract's ABI, its address (left
      out when unset, as `JSON.stringify` drops `undefined`), the function
      name and the parameter list. */
  function WebhookBody(enc: MessageEncoding, abi: Json, address: Option<string>, functionName: string, a: CastVoteArgs): (body: Json)
    ensures body.Obj? && |body.keys| == |body.values| && 3 <= |body.values|
    ensures body.keys[0] == "abi" && body.values[0] == abi
    ensures ("address" in body.keys) <==> address.Some?
    ensures body.keys[|body.keys| - 2] == "functionName" && body.values[|body.values| - 2] == Str(functionName)
    ensures body.keys[|body.keys| - 1] == "functionParameters" && body.values[|body.values| - 1] == ParamsJson(enc, a)
  {
    if address.Some? then
      Obj(["abi", "address", "functionName", "functionParameters"],
          [abi, Str(address.value), Str(functionName), ParamsJson(enc, a)])
    else
      Obj(["abi", "functionName", "functionParameters"], [abi, Str(functionName), ParamsJson(enc, a)])
  }

  /** As written, serialising the webhook body throws for every proof. */
  lemma AsWrittenBodyCannotBeSent(abi: Json, address: Option<string>, functionName: string, a: CastVoteArgs)
    ensures !Serializable(WebhookBody(BigIntMessage, abi, address, functionName, a))
  {
    var params := ParamsJson(BigIntMessage, a);
    assert !Serializable(params.items[3]);
    var body := WebhookBody(BigIntMessage, abi, address, functionName, a);
    assert body.values[|body.values| - 1] == params;
  }

  /** With the message as a number the body always serialises, and its
      parameter list still holds the message at position 3. */
  lemma CorrectedBodySerializes(abi: Json, address: Option<string>, functionName: string, a: CastVoteArgs)
    requires Serializable(abi)
    ensures Serializable(WebhookBody(NumberMessage, abi, address, functionName, a))
    ensures var body := WebhookBody(NumberMessage, abi, address, functionName, a);
      body.Obj? && body.values[|body.values| - 1].Arr? &&
      body.values[|body.values| - 1].items[3] == Num(a.voteOption)
  {
    var params := ParamsJson(NumberMessage, a);
    assert Serializable(params.items[4]);
    assert Serializable(params);
  }
}
