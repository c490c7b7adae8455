/** What the flows use from Corda's flow library, abstracted: a signed
    transaction is a transaction with the set of keys that signed it,
    `LedgerTransaction.verify` runs the contracts of the model, the
    counterparty's `SignTransactionFlow` verifies, runs its extra check and
    signs, and `FinalityFlow` checks the signatures and the contracts and
    asks the notary when the transaction has inputs or a time window. */
module FlowLibrary {
  import opened Base
  import opened Ledger
  import CommercialPaper
  import IouContract

  /** A transaction with the keys that have signed it. */
  datatype SignedTx = SignedTx(tx: Tx, sigs: set<Key>)

  /** The notary's answer: its signature, or the transaction that already
      consumed one of the inputs. */
  datatype NotaryResponse = Attested(notaryKey: Key) | Conflict(conflictingTx: nat)

  predicate HasPaper(tx: Tx) {
    exists s :: s in AllStates(tx) && s.Paper?
  }

  predicate HasIou(tx: Tx) {
    exists s :: s in AllStates(tx) && s.Iou?
  }

  /** The contract of every state's kind verifies.  Which failure is reported
      when both contracts fail is this model's choice: Corda runs the contracts
      of a transaction in no order a flow can rely on, and the model reports the
      commercial paper contract's failure first, then the IOU contract's.  The
      cash contract is not part of the model. */
  function VerifyContracts(tx: Tx): (r: Outcome)
    ensures r == Pass <==>
              (HasPaper(tx) ==> CommercialPaper.Verify(tx) == Pass) && (HasIou(tx) ==> IouContract.Verify(tx) == Pass)
    ensures HasPaper(tx) && CommercialPaper.Verify(tx).Fail? ==> r == CommercialPaper.Verify(tx)
  {
    if HasPaper(tx) && CommercialPaper.Verify(tx).Fail? then CommercialPaper.Verify(tx)
    else if HasIou(tx) && IouContract.Verify(tx).Fail? then IouContract.Verify(tx)
    else Pass
  }

  /** The required signers that have not signed. */
  function MissingSigners(stx: SignedTx): (r: set<Key>)
    ensures forall k :: k in r <==> k in RequiredSigners(stx.tx.commands) && k !in stx.sigs
  {
    RequiredSigners(stx.tx.commands) - stx.sigs
  }

  /** `signInitialTransaction(builder, keys)` */
  function SignInitial(tx: Tx, keys: set<Key>): (r: SignedTx)
    ensures r.tx == tx && r.sigs == keys
  {
    SignedTx(tx, keys)
  }

  /** `SignTransactionFlow` as the counterparty runs it: verify the contracts,
      run the flow's own `checkTransaction` (its outcome is `check`), and sign
      with `key`. */
  function SignTransaction(stx: SignedTx, check: Outcome, key: Key): (r: Result<SignedTx>)
    ensures r.Ok? <==> VerifyContracts(stx.tx) == Pass && check == Pass
    ensures r.Ok? ==> r.value.tx == stx.tx && r.value.sigs == stx.sigs + {key}
    ensures VerifyContracts(stx.tx).Fail? ==> r == Err(VerifyContracts(stx.tx).error)
    ensures VerifyContracts(stx.tx) == Pass && check.Fail? ==> r == Err(check.error)
  {
    match VerifyContracts(stx.tx)
    case Fail(e) => Err(e)
    case Pass =>
      match check
      case Fail(e) => Err(e)
      case Pass => Ok(SignedTx(stx.tx, stx.sigs + {key}))
  }

  /** The notary must sign a transaction that consumes states or carries a
      time window. */
  predicate NeedsNotary(tx: Tx) {
    tx.inputs != [] || tx.timeWindow.Some?
  }

  /** `FinalityFlow` */
  function Finality(stx: SignedTx, notary: NotaryResponse): (r: Result<SignedTx>)
    ensures r.Ok? <==> MissingSigners(stx) == {} && VerifyContracts(stx.tx) == Pass && (NeedsNotary(stx.tx) ==> notary.Attested?)
    ensures r.Ok? ==> r.value.tx == stx.tx && stx.sigs <= r.value.sigs
    ensures r.Ok? ==> r.value.sigs == if NeedsNotary(stx.tx) then stx.sigs + {notary.notaryKey} else stx.sigs
    ensures MissingSigners(stx) != {} ==> r == Err(MissingSignatures(MissingSigners(stx)))
  {
    if MissingSigners(stx) != {} then Err(MissingSignatures(MissingSigners(stx)))
    else
      match VerifyContracts(stx.tx)
      case Fail(e) => Err(e)
      case Pass =>
        if !NeedsNotary(stx.tx) then Ok(stx)
        else
          match notary
          case Conflict(h) => Err(NotaryConflict(h))
          case Attested(k) => Ok(SignedTx(stx.tx, stx.sigs + {k}))
  }

  /** A finalised transaction carries a signature of every required signer
      and passes its contracts. */
  lemma FinalisedIsFullySigned(stx: SignedTx, notary: NotaryResponse)
    requires Finality(stx, notary).Ok?
    ensures RequiredSigners(stx.tx.commands) <= Finality(stx, notary).value.sigs
    ensures VerifyContracts(Finality(stx, notary).value.tx) == Pass
  {
    forall k | k in RequiredSigners(stx.tx.commands) ensures k in Finality(stx, notary).value.sigs {
      assert k !in MissingSigners(stx);
    }
  }
}
