/** The IOU contract: a transaction under one `Create` command consumes
    nothing and produces one IOU, of a non-negative value, between two
    distinct parties who are exactly the two signers. */
module IouContract {
  import opened Base
  import opened IouState
  import opened Ledger

  const IOU_CONTRACT_ID: string := "com.template.IOUContract"

  /** `outputsOfType<IOUState>()` */
  function IousOf(states: seq<ContractState>): (r: seq<IOUState>)
    ensures forall s :: s in r <==> Iou(s) in states
  {
    if states == [] then []
    else (if states[0].Iou? then [states[0].iou] else []) + IousOf(states[1..])
  }

  /** `IOUContract.verify` */
  function Verify(tx: Tx): Outcome {
    match RequireSingleCommand(tx.commands, IouCreateClass)
    case Err(e) => Fail(e)
    case Ok(cmd) =>
      if tx.inputs != [] then Fail(Requirement(NoInputs))
      else if !(|tx.outputs| == 1 && tx.outputs[0].Iou?) then Fail(Requirement(OneOutput))
      else
        match Single(IousOf(tx.outputs))
        case Err(e) => Fail(e)
        case Ok(out) =>
          if !(out.value >= 0) then Fail(Requirement(NonNegative))
          else if out.borrower == out.lender then Fail(Requirement(DistinctParties))
          else if |cmd.signers| != 2 then Fail(Requirement(TwoSigners))
          else if !(out.borrower.owningKey in cmd.signers && out.lender.owningKey in cmd.signers) then Fail(Requirement(BothSign))
          else Pass
  }

  /** The rules of the contract, all at once. */
  predicate Valid(tx: Tx) {
    |Select(tx.commands, IouCreateClass)| == 1 &&
    tx.inputs == [] && |tx.outputs| == 1 && tx.outputs[0].Iou? &&
    var out, signers := tx.outputs[0].iou, Select(tx.commands, IouCreateClass)[0].signers;
    out.value >= 0 && out.borrower != out.lender && |signers| == 2 &&
    out.borrower.owningKey in signers && out.lender.owningKey in signers
  }

  lemma IousOfOne(s: ContractState)
    ensures IousOf([s]) == if s.Iou? then [s.iou] else []
  {
    assert [s][1..] == [];
  }

  /** Verification passes exactly when every rule holds. */
  lemma VerifyPassIff(tx: Tx)
    ensures Verify(tx) == Pass <==> Valid(tx)
  {
    if |tx.outputs| == 1 {
      assert tx.outputs == [tx.outputs[0]];
      IousOfOne(tx.outputs[0]);
    }
  }

  /** The rules are checked in order and the first broken one is reported:
      the single `Create` command first, then no input, one IOU output, a
      non-negative value, distinct parties, two signers, and the parties among
      the signers. */
  lemma VerifyReportsFirstBrokenRule(tx: Tx)
    ensures Select(tx.commands, IouCreateClass) == [] ==> Verify(tx) == Fail(MissingCommand(IouCreateClass))
    ensures |Select(tx.commands, IouCreateClass)| > 1 ==> Verify(tx) == Fail(SeveralElements)
    ensures |Select(tx.commands, IouCreateClass)| == 1 ==>
              var signers := Select(tx.commands, IouCreateClass)[0].signers;
              (tx.inputs != [] ==> Verify(tx) == Fail(Requirement(NoInputs))) &&
              (tx.inputs == [] && !(|tx.outputs| == 1 && tx.outputs[0].Iou?) ==> Verify(tx) == Fail(Requirement(OneOutput))) &&
              (tx.inputs == [] && |tx.outputs| == 1 && tx.outputs[0].Iou? ==>
                 var out := tx.outputs[0].iou;
                 (out.value < 0 ==> Verify(tx) == Fail(Requirement(NonNegative))) &&
                 (out.value >= 0 && out.borrower == out.lender ==> Verify(tx) == Fail(Requirement(DistinctParties))) &&
                 (out.value >= 0 && out.borrower != out.lender && |signers| != 2 ==>
                    Verify(tx) == Fail(Requirement(TwoSigners))) &&
                 (out.value >= 0 && out.borrower != out.lender && |signers| == 2 &&
                  !(out.borrower.owningKey in signers && out.lender.owningKey in signers) ==>
                    Verify(tx) == Fail(Requirement(BothSign))))
  {
    if |tx.outputs| == 1 {
      assert tx.outputs == [tx.outputs[0]];
      IousOfOne(tx.outputs[0]);
    }
  }

  /** In a valid transaction the signers are exactly the lender's and the
      borrower's keys, each once. */
  lemma SignersAreTheParties(tx: Tx)
    requires Verify(tx) == Pass
    ensures var out, signers := tx.outputs[0].iou, Select(tx.commands, IouCreateClass)[0].signers;
            multiset(signers) == multiset{out.lender.owningKey, out.borrower.owningKey}
  {
    VerifyPassIff(tx);
    var out, signers := tx.outputs[0].iou, Select(tx.commands, IouCreateClass)[0].signers;
    var l, b := out.lender.owningKey, out.borrower.owningKey;
    assert l != b;
    assert signers == [signers[0], signers[1]];
    if signers[0] == l {
      assert signers[1] == b;
    } else {
      assert signers[0] == b && signers[1] == l;
    }
  }

  /** The signers of a valid transaction are its IOU's participants. */
  lemma SignersAreParticipants(tx: Tx)
    requires Verify(tx) == Pass
    ensures forall k :: k in Select(tx.commands, IouCreateClass)[0].signers <==>
                        exists p :: p in IouState.Participants(tx.outputs[0].iou) && p.owningKey == k
  {
    SignersAreTheParties(tx);
    var out, signers := tx.outputs[0].iou, Select(tx.commands, IouCreateClass)[0].signers;
    forall k ensures k in signers <==> exists p :: p in IouState.Participants(out) && p.owningKey == k {
      assert k in signers <==> k in multiset(signers);
      if k == out.lender.owningKey { assert out.lender in IouState.Participants(out); }
      if k == out.borrower.owningKey { assert out.borrower in IouState.Participants(out); }
    }
  }
}
