/** The IOU flow: the initiator builds an IOU it lends to the other party,
    verifies it, signs it, has the other party sign it and finalises it; the
    responder signs only an IOU of value at most 100. */
module IouFlow {
  import opened Base
  import opened IouState
  import opened Ledger
  import opened FlowLibrary
  import IouContract

  /** The highest value the responder signs for. */
  const MaxIouValue: int := 100

  /** What the initiator builds: one IOU lent by the initiator to the other
      party, under a `Create` command signed by both. */
  function InitiatorTx(iouValue: Int32, ourIdentity: Party, otherParty: Party): (tx: Tx)
    ensures tx.inputs == [] && tx.timeWindow == None
    ensures tx.outputs == [Iou(IOUState(iouValue, ourIdentity, otherParty))]
    ensures tx.commands == [Command(IouCreate, [ourIdentity.owningKey, otherParty.owningKey])]
  {
    Tx([], [Iou(IOUState(iouValue, ourIdentity, otherParty))], [Command(IouCreate, [ourIdentity.owningKey, otherParty.owningKey])], None)
  }

  /** The initiator's transaction verifies exactly when the value is not
      negative and the initiator is not lending to itself. */
  lemma InitiatorTxVerifiesIff(iouValue: Int32, ourIdentity: Party, otherParty: Party)
    ensures IouContract.Verify(InitiatorTx(iouValue, ourIdentity, otherParty)) == Pass <==>
              iouValue >= 0 && ourIdentity != otherParty
    ensures iouValue < 0 ==> IouContract.Verify(InitiatorTx(iouValue, ourIdentity, otherParty)) == Fail(Requirement(NonNegative))
    ensures iouValue >= 0 && ourIdentity == otherParty ==>
              IouContract.Verify(InitiatorTx(iouValue, ourIdentity, otherParty)) == Fail(Requirement(DistinctParties))
  {
    var tx := InitiatorTx(iouValue, ourIdentity, otherParty);
    var create := Command(IouCreate, [ourIdentity.owningKey, otherParty.owningKey]);
    assert Select(tx.commands, IouCreateClass) == [create] by { assert tx.commands[1..] == []; }
    IouContract.VerifyPassIff(tx);
    IouContract.VerifyReportsFirstBrokenRule(tx);
  }

  /** What the flow library makes of the initiator's transaction: only the
      IOU contract runs, both parties must sign, and no notary is needed. */
  lemma InitiatorTxContracts(iouValue: Int32, ourIdentity: Party, otherParty: Party)
    ensures var tx := InitiatorTx(iouValue, ourIdentity, otherParty);
            VerifyContracts(tx) == IouContract.Verify(tx) &&
            RequiredSigners(tx.commands) == {ourIdentity.owningKey, otherParty.owningKey} &&
            !NeedsNotary(tx)
  {
    var tx := InitiatorTx(iouValue, ourIdentity, otherParty);
    assert HasIou(tx) by { assert tx.outputs[0] in AllStates(tx); }
    assert !HasPaper(tx);
    assert tx.commands[0] in tx.commands;
  }

  /** `Responder.checkTransaction` */
  function ResponderCheck(stx: SignedTx): Outcome {
    match Single(stx.tx.outputs)
    case Err(e) => Fail(e)
    case Ok(output) =>
      if !output.Iou? then Fail(Requirement(MustBeIou))
      else if !(output.iou.value as int <= MaxIouValue) then Fail(Requirement(TooHigh))
      else Pass
  }

  /** The responder's check accepts exactly a transaction whose one output is
      an IOU of value at most 100. */
  lemma ResponderCheckPassIff(stx: SignedTx)
    ensures ResponderCheck(stx) == Pass <==>
              |stx.tx.outputs| == 1 && stx.tx.outputs[0].Iou? && stx.tx.outputs[0].iou.value as int <= MaxIouValue
    ensures |stx.tx.outputs| != 1 ==> ResponderCheck(stx) == Fail(if stx.tx.outputs == [] then EmptyList else SeveralElements)
  {
  }

  /** The value the Braid client sends (99) passes, 100 passes, 101 does not. */
  lemma ResponderLimit(ourIdentity: Party, otherParty: Party, sigs: set<Key>)
    ensures ResponderCheck(SignedTx(InitiatorTx(99, ourIdentity, otherParty), sigs)) == Pass
    ensures ResponderCheck(SignedTx(InitiatorTx(100, ourIdentity, otherParty), sigs)) == Pass
    ensures ResponderCheck(SignedTx(InitiatorTx(101, ourIdentity, otherParty), sigs)) == Fail(Requirement(TooHigh))
  {
  }

  /** The steps of `Initiator.call`, in order. */
  datatype InitiatorStep = Verified | SignedByUs | CollectedSignature | Finalised

  const InitiatorSteps: seq<InitiatorStep> := [Verified, SignedByUs, CollectedSignature, Finalised]

  /** `Initiator.call`; the notary's answer is a parameter (it is not asked,
      since the transaction has no inputs and no time window).  Returns the
      finalised transaction, and the steps completed. */
  method InitiatorCall(iouValue: Int32, ourIdentity: Party, otherParty: Party, notary: NotaryResponse)
    returns (r: Result<SignedTx>, steps: seq<InitiatorStep>)
    ensures r.Ok? <==> 0 <= iouValue as int <= MaxIouValue && ourIdentity != otherParty
    ensures r.Ok? ==> r.value == SignedTx(InitiatorTx(iouValue, ourIdentity, otherParty), {ourIdentity.owningKey, otherParty.owningKey})
    ensures r.Ok? ==> steps == InitiatorSteps
    ensures r.Err? ==> steps < InitiatorSteps
    ensures iouValue < 0 ==> r == Err(Requirement(NonNegative)) && steps == []
    ensures 0 <= iouValue as int <= MaxIouValue && ourIdentity == otherParty ==> r == Err(Requirement(DistinctParties))
    ensures iouValue as int > MaxIouValue && ourIdentity != otherParty ==>
              r == Err(Requirement(TooHigh)) && steps == [Verified, SignedByUs]
  {
    InitiatorTxVerifiesIff(iouValue, ourIdentity, otherParty);
    var txBuilder := new TransactionBuilder();
    var outputState := IOUState(iouValue, ourIdentity, otherParty);
    var cmd := Command(IouCreate, [ourIdentity.owningKey, otherParty.owningKey]);
    txBuilder.WithItems(Iou(outputState), cmd);
    var tx := txBuilder.Contents();
    assert tx == InitiatorTx(iouValue, ourIdentity, otherParty);
    InitiatorTxContracts(iouValue, ourIdentity, otherParty);
    steps := [];

    var verified := VerifyContracts(tx);
    if verified.Fail? {
      return Err(verified.error), steps;
    }
    steps := steps + [Verified];

    var signedTx := SignInitial(tx, {ourIdentity.owningKey});
    steps := steps + [SignedByUs];

    var fullySignedTx := SignTransaction(signedTx, ResponderCheck(signedTx), otherParty.owningKey);
    if fullySignedTx.Err? {
      return Err(fullySignedTx.error), steps;
    }
    steps := steps + [CollectedSignature];

    r := Finality(fullySignedTx.value, notary);
    steps := steps + [Finalised];
  }
}
