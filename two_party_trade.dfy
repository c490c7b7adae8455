/** The two-party trade flow: a seller offers an ownable asset for a price,
    the buyer validates the offer, assembles a transaction that pays the
    price in cash and moves the asset to itself, the seller checks and co-signs
    it, and the buyer finalises it.  Each side reports its progress through a
    progress tracker. */
module TwoPartyTrade {
  import opened Base
  import opened Ledger
  import opened FlowLibrary
  import PaperState
  import CommercialPaper

  /** What the seller sends with the asset: the price and where to pay it. */
  datatype SellerTradeInfo = SellerTradeInfo(price: CurrencyAmount, payToIdentity: PartyAndCertificate)

  // ---------------------------------------------------------------------
  // Progress tracking

  /** The steps of both roles. */
  datatype Step =
    | AwaitingProposal | VerifyingAndSigning
    | Receiving | Verifying | Signing | CollectingSignatures | Recording

  /** `Seller.tracker()` */
  const SellerSteps: seq<Step> := [AwaitingProposal, VerifyingAndSigning]

  /** The buyer's `progressTracker` */
  const BuyerSteps: seq<Step> := [Receiving, Verifying, Signing, CollectingSignatures, Recording]

  /** Going through the buyer's steps from `k` to `m` and then to `n` is
      going through them from `k` to `n`. */
  lemma BuyerStepsAppend(prefix: seq<Step>, k: nat, m: nat, n: nat)
    requires k <= m <= n <= |BuyerSteps|
    ensures prefix + BuyerSteps[k..m] + BuyerSteps[m..n] == prefix + BuyerSteps[k..n]
  {
    assert BuyerSteps[k..m] + BuyerSteps[m..n] == BuyerSteps[k..n];
  }

  lemma BuyerStepsFirst()
    ensures BuyerSteps[0..2] == [Receiving, Verifying]
    ensures BuyerSteps[2..3] == [Signing]
    ensures BuyerSteps[3..4] == [CollectingSignatures]
    ensures BuyerSteps[4..5] == [Recording]
  {
  }

  /** Corda's `ProgressTracker`: a fixed list of steps and the current one;
      every change of step is recorded, in order, in `changes`. */
  class ProgressTracker {
    const steps: seq<Step>
    var currentStep: Option<Step>
    var changes: seq<Step>

    /** The changes so far lead to the current step. */
    predicate Valid()
      reads this
    {
      (currentStep.None? <==> changes == []) &&
      (changes != [] ==> currentStep == Some(changes[|changes| - 1])) &&
      (forall i :: 0 <= i < |changes| ==> changes[i] in steps)
    }

    constructor (steps: seq<Step>)
      ensures this.steps == steps && currentStep == None && changes == []
      ensures Valid()
    {
      this.steps := steps;
      currentStep := None;
      changes := [];
    }

    /** Set the current step: it must be one of the tracker's steps, and
        setting the step it is already at changes nothing. */
    method SetCurrentStep(s: Step)
      requires Valid() && s in steps
      modifies this
      ensures Valid() && currentStep == Some(s)
      ensures changes == if old(currentStep) == Some(s) then old(changes) else old(changes) + [s]
    {
      if currentStep == Some(s) {
        return;
      }
      currentStep := Some(s);
      changes := changes + [s];
    }
  }

  // ---------------------------------------------------------------------
  // The buyer's decisions

  /** `verifyAndRegisterIdentity(identity)`, as it changes the identity
      service: the identity's key is registered as belonging to the party its
      certificate names, unless the key is known already. */
  function RegisterIdentity(ids: IdentityMap, identity: PartyAndCertificate): (r: IdentityMap)
    ensures r.Keys == ids.Keys + {identity.party.owningKey}
    ensures forall k :: k in ids ==> r[k] == ids[k]
    ensures identity.party.owningKey !in ids ==> r[identity.party.owningKey] == identity.certifiedAs
  {
    if identity.party.owningKey in ids then ids else ids[identity.party.owningKey := identity.certifiedAs]
  }

  /** The party of `verifyAndRegisterIdentity(payTo) ?: payTo`, once `payTo` is
      registered in `ids`: the well-known party the certificate names, as the
      identity service knows it, or the pay-to identity itself when the service
      does not know that party. */
  function RegisteredPayTo(ids: IdentityMap, payTo: PartyAndCertificate): (r: Party)
    ensures payTo.certifiedAs.owningKey in ids ==> r == ids[payTo.certifiedAs.owningKey]
    ensures payTo.certifiedAs.owningKey !in ids ==> r == payTo.party
  {
    match WellKnownPartyFromAnonymous(ids, payTo.certifiedAs)
    case Some(p) => p
    case None => payTo.party
  }

  /** A pay-to identity certified as the counterparty resolves to it when the
      buyer knows the counterparty; one certified as nobody the buyer knows,
      and not itself the counterparty's key, does not. */
  lemma PayToResolution(ids: IdentityMap, counterparty: Party, payTo: PartyAndCertificate)
    ensures payTo.certifiedAs == counterparty && counterparty.owningKey in ids && ids[counterparty.owningKey] == counterparty ==>
              RegisteredPayTo(RegisterIdentity(ids, payTo), payTo) == counterparty
    ensures payTo.certifiedAs.owningKey !in RegisterIdentity(ids, payTo) && payTo.party != counterparty ==>
              RegisteredPayTo(RegisterIdentity(ids, payTo), payTo) != counterparty
  {
  }

  /** The buyer's identity service after `receiveAndValidateTradeRequest`: the
      pay-to identity is registered once the asset's owner has been checked. */
  function ReceivedIds(ids: IdentityMap, counterparty: Party, asset: OwnableState, info: SellerTradeInfo): (r: IdentityMap)
    ensures WellKnownPartyFromAnonymous(ids, Owner(asset)) != Some(counterparty) ==> r == ids
    ensures WellKnownPartyFromAnonymous(ids, Owner(asset)) == Some(counterparty) ==> r == RegisterIdentity(ids, info.payToIdentity)
  {
    if WellKnownPartyFromAnonymous(ids, Owner(asset)) != Some(counterparty) then ids
    else RegisterIdentity(ids, info.payToIdentity)
  }

  /** `receiveAndValidateTradeRequest`, once the asset and the trade info have
      arrived from `counterparty`. */
  function ValidateTradeRequest(ids: IdentityMap, counterparty: Party, asset: OwnableState, info: SellerTradeInfo,
                                acceptablePrice: CurrencyAmount, typeToBuy: StateKind): Outcome {
    if WellKnownPartyFromAnonymous(ids, Owner(asset)) != Some(counterparty) then Fail(Illegal(RequireFailed))
    else if RegisteredPayTo(RegisterIdentity(ids, info.payToIdentity), info.payToIdentity) != counterparty then Fail(Illegal(RequireFailed))
    else
      match Exceeds(info.price, acceptablePrice)
      case Err(e) => Fail(e)
      case Ok(tooHigh) =>
        if tooHigh then Fail(UnacceptablePrice(info.price))
        else if KindOf(asset) != typeToBuy then Fail(AssetMismatch(typeToBuy, KindOf(asset)))
        else Pass
  }

  /** The offer is accepted exactly when the asset's owner is the seller, the
      payment goes to the seller, the price is in the buyer's currency and
      not above the ceiling, and the asset is of the wanted kind. */
  lemma ValidateTradeRequestPassIff(ids: IdentityMap, counterparty: Party, asset: OwnableState, info: SellerTradeInfo,
                                    acceptablePrice: CurrencyAmount, typeToBuy: StateKind)
    ensures ValidateTradeRequest(ids, counterparty, asset, info, acceptablePrice, typeToBuy) == Pass <==>
              Owner(asset).owningKey in ids && ids[Owner(asset).owningKey] == counterparty &&
              RegisteredPayTo(RegisterIdentity(ids, info.payToIdentity), info.payToIdentity) == counterparty &&
              info.price.token == acceptablePrice.token && info.price.quantity <= acceptablePrice.quantity &&
              KindOf(asset) == typeToBuy
  {
  }

  /** The checks come in order: the asset's owner, the payee, the price (its
      currency, then the ceiling), the asset's kind.  An owner other than the
      seller is reported first; a price above the ceiling is reported as
      unacceptable whatever the asset's kind, and it is only ever reported for
      a price above the ceiling; an asset of the wrong kind is reported only
      once the price is acceptable. */
  lemma ValidateTradeRequestOrder(ids: IdentityMap, counterparty: Party, asset: OwnableState, info: SellerTradeInfo,
                                  acceptablePrice: CurrencyAmount, typeToBuy: StateKind)
    ensures WellKnownPartyFromAnonymous(ids, Owner(asset)) != Some(counterparty) ==>
              ValidateTradeRequest(ids, counterparty, asset, info, acceptablePrice, typeToBuy) == Fail(Illegal(RequireFailed))
    ensures WellKnownPartyFromAnonymous(ids, Owner(asset)) == Some(counterparty) &&
            RegisteredPayTo(RegisterIdentity(ids, info.payToIdentity), info.payToIdentity) != counterparty ==>
              ValidateTradeRequest(ids, counterparty, asset, info, acceptablePrice, typeToBuy) == Fail(Illegal(RequireFailed))
    ensures WellKnownPartyFromAnonymous(ids, Owner(asset)) == Some(counterparty) &&
            RegisteredPayTo(RegisterIdentity(ids, info.payToIdentity), info.payToIdentity) == counterparty &&
            info.price.token != acceptablePrice.token ==>
              ValidateTradeRequest(ids, counterparty, asset, info, acceptablePrice, typeToBuy) == Fail(TokenMismatch)
    ensures WellKnownPartyFromAnonymous(ids, Owner(asset)) == Some(counterparty) &&
            RegisteredPayTo(RegisterIdentity(ids, info.payToIdentity), info.payToIdentity) == counterparty &&
            info.price.token == acceptablePrice.token && info.price.quantity > acceptablePrice.quantity ==>
              ValidateTradeRequest(ids, counterparty, asset, info, acceptablePrice, typeToBuy) == Fail(UnacceptablePrice(info.price))
    ensures WellKnownPartyFromAnonymous(ids, Owner(asset)) == Some(counterparty) &&
            RegisteredPayTo(RegisterIdentity(ids, info.payToIdentity), info.payToIdentity) == counterparty &&
            info.price.token == acceptablePrice.token && info.price.quantity <= acceptablePrice.quantity &&
            KindOf(asset) != typeToBuy ==>
              ValidateTradeRequest(ids, counterparty, asset, info, acceptablePrice, typeToBuy) == Fail(AssetMismatch(typeToBuy, KindOf(asset)))
    ensures ValidateTradeRequest(ids, counterparty, asset, info, acceptablePrice, typeToBuy).Fail? &&
            ValidateTradeRequest(ids, counterparty, asset, info, acceptablePrice, typeToBuy).error.UnacceptablePrice? ==>
              info.price.quantity > acceptablePrice.quantity && info.price.token == acceptablePrice.token
    ensures ValidateTradeRequest(ids, counterparty, asset, info, acceptablePrice, typeToBuy).Fail? &&
            ValidateTradeRequest(ids, counterparty, asset, info, acceptablePrice, typeToBuy).error.AssetMismatch? ==>
              info.price.quantity <= acceptablePrice.quantity && KindOf(asset) != typeToBuy
  {
  }

  /** The identity the buyer is paid the asset to. */
  function BuyerIdentity(anonymous: bool, ourIdentity: PartyAndCertificate, freshIdentity: PartyAndCertificate): (r: PartyAndCertificate)
    ensures !anonymous ==> r == ourIdentity
    ensures anonymous ==> r == freshIdentity
  {
    if anonymous then freshIdentity else ourIdentity
  }

  /** The transaction `assembleSharedTX` builds, with the cash signing keys:
      the spend of the price to the payee, the asset as an input, the asset
      under the buyer's identity as an output, a move signed by the asset's
      owner, and a time window of thirty seconds either side of `now`. */
  function SharedTx(coins: seq<StateAndRef>, info: SellerTradeInfo, asset: OwnableRef, buyer: Party,
                    changeOwner: Party, now: int): (r: Result<(Tx, seq<Key>)>)
    ensures r.Ok? <==> CanPay(coins, info.price)
  {
    match GenerateSpend(coins, info.price, info.payToIdentity.party, changeOwner)
    case Err(e) => Err(e)
    case Ok(spend) =>
      var moved := Ledger.WithNewOwner(asset.state, buyer);
      var tx := AddSpend(EmptyTx, spend);
      var tx := tx.(inputs := tx.inputs + [asset]);
      var tx := tx.(outputs := tx.outputs + [moved.1]);
      var tx := tx.(commands := tx.commands + [Command(moved.0, [Owner(asset.state).owningKey])]);
      var tx := tx.(timeWindow := Some(WithTolerance(now, 30)));
      Ok((tx, spend.command.signers))
  }

  /** The assembled transaction holds the asset as its last input, the asset
      under the buyer's identity as its last output, a move of the asset signed
      by its owner as its last command, and a window containing `now`. */
  lemma SharedTxShape(coins: seq<StateAndRef>, info: SellerTradeInfo, asset: OwnableRef, buyer: Party, changeOwner: Party, now: int)
    requires CanPay(coins, info.price)
    ensures var (tx, keys) := SharedTx(coins, info, asset, buyer, changeOwner, now).value;
            tx.inputs == coins + [asset] &&
            tx.outputs[|tx.outputs| - 1] == Ledger.WithNewOwner(asset.state, buyer).1 &&
            Owner(tx.outputs[|tx.outputs| - 1]) == buyer &&
            tx.commands == [Command(CashMove, keys), Command(Ledger.WithNewOwner(asset.state, buyer).0, [Owner(asset.state).owningKey])] &&
            keys == CoinOwnerKeys(coins) &&
            tx.timeWindow == Some(Between(now - 30, now + 30)) && Contains(tx.timeWindow.value, now)
  {
  }

  /** The buyer's `assembleSharedTX`, building on a fresh transaction builder. */
  method AssembleSharedTx(coins: seq<StateAndRef>, info: SellerTradeInfo, asset: OwnableRef, buyer: Party,
                          changeOwner: Party, now: int)
    returns (r: Result<seq<Key>>, ptx: TransactionBuilder)
    ensures fresh(ptx)
    ensures r.Ok? ==> SharedTx(coins, info, asset, buyer, changeOwner, now) == Ok((ptx.Contents(), r.value))
    ensures r.Err? ==> SharedTx(coins, info, asset, buyer, changeOwner, now) == Err(r.error)
    ensures r.Err? ==> r.error == InsufficientBalance
  {
    ptx := new TransactionBuilder();
    var keys := ptx.GenerateSpendInto(coins, info.price, info.payToIdentity.party, changeOwner);
    if keys.Err? {
      return Err(keys.error), ptx;
    }
    ptx.AddInputState(asset);
    var (command, state) := Ledger.WithNewOwner(asset.state, buyer);
    ptx.AddOutputState(state);
    ptx.AddCommand(Command(command, [Owner(asset.state).owningKey]));
    ptx.SetTimeWindow(WithTolerance(now, 30));
    r := Ok(keys.value);
  }

  // ---------------------------------------------------------------------
  // The seller's check

  /** The first participant of `states`, in order, that the identity service
      does not know. */
  function FirstUnknown(ids: IdentityMap, states: seq<ContractState>): (r: Option<Party>)
    ensures r.None? <==> forall s, p :: s in states && p in Participants(s) ==> p.owningKey in ids
    ensures r.Some? ==> r.value.owningKey !in ids && exists s :: s in states && r.value in Participants(s)
  {
    if states == [] then None
    else
      match FirstUnknownOf(ids, Participants(states[0]))
      case Some(p) => Some(p)
      case None =>
        var rest := FirstUnknown(ids, states[1..]);
        assert forall s :: s in states[1..] ==> s in states;
        rest
  }

  function FirstUnknownOf(ids: IdentityMap, parties: seq<Party>): (r: Option<Party>)
    ensures r.None? <==> forall p :: p in parties ==> p.owningKey in ids
    ensures r.Some? ==> r.value in parties && r.value.owningKey !in ids
  {
    if parties == [] then None
    else if parties[0].owningKey !in ids then Some(parties[0])
    else FirstUnknownOf(ids, parties[1..])
  }

  /** The seller's `checkTransaction` with the cash received compared to the
      price without its issuer, which the flow evidently intends. */
  function SellerCheck(ids: IdentityMap, stx: SignedTx, myParty: PartyAndCertificate, price: CurrencyAmount): Outcome {
    match FirstUnknown(ids, AllStates(stx.tx))
    case Some(anon) => Fail(UnknownParticipant(anon))
    case None =>
      match SumCashBy(stx.tx.outputs, myParty.party)
      case Err(e) => Fail(e)
      case Ok(received) =>
        if WithoutIssuer(received) != price then Fail(FlowFailure(WrongCash))
        else Pass
  }

  /** The seller signs exactly when it knows every participant and the cash
      paid to it is of one issued token and adds up to the price exactly:
      less and more are both refused. */
  lemma SellerCheckPassIff(ids: IdentityMap, stx: SignedTx, myParty: PartyAndCertificate, price: CurrencyAmount)
    ensures SellerCheck(ids, stx, myParty, price) == Pass <==>
              (forall s, p :: s in AllStates(stx.tx) && p in Participants(s) ==> p.owningKey in ids) &&
              SumCashBy(stx.tx.outputs, myParty.party).Ok? &&
              SumCashBy(stx.tx.outputs, myParty.party).value.quantity == price.quantity &&
              SumCashBy(stx.tx.outputs, myParty.party).value.token.product == price.token.currency
  {
  }

  /** The seller's `checkTransaction` as written: the issued amount of cash
      received is compared with the plain price. */
  function SellerCheckAsWritten(ids: IdentityMap, stx: SignedTx, myParty: PartyAndCertificate, price: CurrencyAmount): Outcome {
    match FirstUnknown(ids, AllStates(stx.tx))
    case Some(anon) => Fail(UnknownParticipant(anon))
    case None =>
      match SumCashBy(stx.tx.outputs, myParty.party)
      case Err(e) => Fail(e)
      case Ok(received) =>
        if received != price then Fail(FlowFailure(WrongCash))
        else Pass
  }

  /** As written, the check passes no transaction at all: an amount of issued
      cash never equals an amount of plain currency.  Where the corrected
      check would pass, the written one refuses it as the wrong amount. */
  lemma SellerCheckAsWrittenRejectsAll(ids: IdentityMap, stx: SignedTx, myParty: PartyAndCertificate, price: CurrencyAmount)
    ensures SellerCheckAsWritten(ids, stx, myParty, price) != Pass
    ensures SellerCheck(ids, stx, myParty, price) == Pass ==>
              SellerCheckAsWritten(ids, stx, myParty, price) == Fail(FlowFailure(WrongCash))
  {
    var r := SumCashBy(stx.tx.outputs, myParty.party);
    if r.Ok? {
      assert r.value.token.Issued? && price.token.Plain?;
    }
  }

  // ---------------------------------------------------------------------
  // The two roles

  /** `TwoPartyTradeFlow.Seller` */
  class Seller {
    /** The seller node's well-known identity (what the buyer's session sees). */
    const node: Party
    const assetToSell: OwnableRef
    const price: CurrencyAmount
    const myParty: PartyAndCertificate
    const tracker: ProgressTracker
    /** The seller's identity service. */
    var ids: IdentityMap

    constructor (node: Party, assetToSell: OwnableRef, price: CurrencyAmount, myParty: PartyAndCertificate, ids: IdentityMap)
      ensures this.node == node && this.assetToSell == assetToSell && this.price == price && this.myParty == myParty
      ensures this.ids == ids && fresh(tracker)
      ensures tracker.steps == SellerSteps && tracker.Valid() && tracker.changes == []
    {
      this.node, this.assetToSell, this.price, this.myParty, this.ids := node, assetToSell, price, myParty, ids;
      tracker := new ProgressTracker(SellerSteps);
    }

    /** The first part of `call`: send the asset and the trade info, then move
        on to verifying and signing. */
    method Offer() returns (assets: seq<OwnableRef>, hello: SellerTradeInfo)
      requires tracker.Valid() && tracker.steps == SellerSteps && tracker.currentStep.None?
      modifies tracker
      ensures assets == [assetToSell] && hello == SellerTradeInfo(price, myParty)
      ensures tracker.Valid() && tracker.changes == SellerSteps && tracker.currentStep == Some(VerifyingAndSigning)
    {
      tracker.SetCurrentStep(AwaitingProposal);
      hello := SellerTradeInfo(price, myParty);
      assets := [assetToSell];
      tracker.SetCurrentStep(VerifyingAndSigning);
    }

    /** The rest of `call`: learn the identities the buyer syncs, then verify,
        check and sign the proposal with the key the buyer asks for. */
    method SignProposal(stx: SignedTx, synced: IdentityMap, key: Key) returns (r: Result<SignedTx>)
      modifies this
      ensures ids == Merge(old(ids), synced)
      ensures r == SignTransaction(stx, SellerCheck(ids, stx, myParty, price), key)
    {
      ids := Merge(ids, synced);
      r := SignTransaction(stx, SellerCheck(ids, stx, myParty, price), key);
    }
  }

  /** `IdentitySyncFlow.Receive`: identities already known are kept, new
      ones are registered. */
  function Merge(known: IdentityMap, synced: IdentityMap): (r: IdentityMap)
    ensures r.Keys == known.Keys + synced.Keys
    ensures forall k :: k in known ==> r[k] == known[k]
    ensures forall k :: k in synced && k !in known ==> r[k] == synced[k]
  {
    map k | k in known.Keys + synced.Keys :: if k in known then known[k] else synced[k]
  }

  /** `IdentitySyncFlow.Send`: the identities the buyer knows for the keys
      the transaction's states involve. */
  function IdentitiesToSync(ids: IdentityMap, tx: Tx): (r: IdentityMap)
    ensures forall k :: k in r <==> k in ParticipantKeys(tx) && k in ids
    ensures forall k :: k in r ==> r[k] == ids[k]
  {
    map k | k in ParticipantKeys(tx) && k in ids :: ids[k]
  }

  /** How the buyer's `call` ends: its result, and how many of its steps it reached. */
  datatype TradeOutcome = TradeOutcome(result: Result<SignedTx>, buyerSteps: nat)

  /** The buyer's `call` from the co-signing on: the seller learns the
      synced identities and checks and signs with its node key, then the
      buyer finalises. */
  function CoSign(buyerIds: IdentityMap, sellerIds: IdentityMap, seller: Party, tx: Tx, keys: seq<Key>,
                  sellerPrice: CurrencyAmount, sellerParty: PartyAndCertificate, notary: NotaryResponse): TradeOutcome {
    var partlySigned := SignInitial(tx, KeySet(keys));
    var synced := Merge(sellerIds, IdentitiesToSync(buyerIds, tx));
    match SignTransaction(partlySigned, SellerCheck(synced, partlySigned, sellerParty, sellerPrice), seller.owningKey)
    case Err(e) => TradeOutcome(Err(e), 4)
    case Ok(fullySigned) => TradeOutcome(Finality(fullySigned, notary), 5)
  }

  /** The buyer's `call` from the assembly on. */
  function Assemble(buyerIds: IdentityMap, sellerIds: IdentityMap, seller: Party, asset: OwnableRef, info: SellerTradeInfo,
                    buyer: PartyAndCertificate, coins: seq<StateAndRef>, changeOwner: Party, now: int,
                    sellerPrice: CurrencyAmount, sellerParty: PartyAndCertificate, notary: NotaryResponse): TradeOutcome {
    match SharedTx(coins, info, asset, buyer.party, changeOwner, now)
    case Err(e) => TradeOutcome(Err(e), 3)
    case Ok((tx, keys)) => CoSign(buyerIds, sellerIds, seller, tx, keys, sellerPrice, sellerParty, notary)
  }

  /** The whole of the buyer's `call`: `buyerIds` is the buyer's identity
      service once its payee identity is registered, `sellerIds` the
      seller's before the sync. */
  function Trade(validation: Outcome, buyerIds: IdentityMap, sellerIds: IdentityMap, seller: Party, asset: OwnableRef,
                 info: SellerTradeInfo, buyer: PartyAndCertificate, coins: seq<StateAndRef>, changeOwner: Party, now: int,
                 sellerPrice: CurrencyAmount, sellerParty: PartyAndCertificate, notary: NotaryResponse): TradeOutcome {
    match validation
    case Fail(e) => TradeOutcome(Err(e), 2)
    case Pass => Assemble(buyerIds, sellerIds, seller, asset, info, buyer, coins, changeOwner, now, sellerPrice, sellerParty, notary)
  }

  /** How a trade ends.  It stops at the second step when the offer is
      invalid, and at the third when the coins cannot pay the price.  A
      trade that succeeds records the assembled transaction, which moves the
      asset to the buyer's identity.  That transaction pays the seller's
      party the seller's price, in cash of one issued token.  It carries
      exactly the signatures of the cash keys, the seller and the notary, and
      among them every required signer's. */
  lemma TradeResult(validation: Outcome, buyerIds: IdentityMap, sellerIds: IdentityMap, seller: Party, asset: OwnableRef,
                    info: SellerTradeInfo, buyer: PartyAndCertificate, coins: seq<StateAndRef>, changeOwner: Party, now: int,
                    sellerPrice: CurrencyAmount, sellerParty: PartyAndCertificate, notary: NotaryResponse)
    ensures var o := Trade(validation, buyerIds, sellerIds, seller, asset, info, buyer, coins, changeOwner, now,
                           sellerPrice, sellerParty, notary);
            (validation.Fail? ==> o == TradeOutcome(Err(validation.error), 2)) &&
            (validation == Pass && !CanPay(coins, info.price) ==> o == TradeOutcome(Err(InsufficientBalance), 3)) &&
            (o.result.Ok? ==>
               validation == Pass && CanPay(coins, info.price) && o.buyerSteps == 5 &&
               var (tx, keys) := SharedTx(coins, info, asset, buyer.party, changeOwner, now).value;
               o.result.value.tx == tx &&
               asset in tx.inputs && Owner(tx.outputs[|tx.outputs| - 1]) == buyer.party &&
               SumCashBy(tx.outputs, sellerParty.party).Ok? &&
               SumCashBy(tx.outputs, sellerParty.party).value.quantity == sellerPrice.quantity &&
               SumCashBy(tx.outputs, sellerParty.party).value.token.product == sellerPrice.token.currency &&
               notary.Attested? && o.result.value.sigs == KeySet(keys) + {seller.owningKey, notary.notaryKey} &&
               RequiredSigners(tx.commands) <= o.result.value.sigs)
  {
    var o := Trade(validation, buyerIds, sellerIds, seller, asset, info, buyer, coins, changeOwner, now,
                   sellerPrice, sellerParty, notary);
    if o.result.Ok? {
      var (tx, keys) := SharedTx(coins, info, asset, buyer.party, changeOwner, now).value;
      SharedTxShape(coins, info, asset, buyer.party, changeOwner, now);
      var partlySigned := SignInitial(tx, KeySet(keys));
      var synced := Merge(sellerIds, IdentitiesToSync(buyerIds, tx));
      SellerCheckPassIff(synced, partlySigned, sellerParty, sellerPrice);
      var fullySigned := SignTransaction(partlySigned, SellerCheck(synced, partlySigned, sellerParty, sellerPrice), seller.owningKey);
      FinalisedIsFullySigned(fullySigned.value, notary);
    }
  }

  /** `TwoPartyTradeFlow.Buyer` */
  class Buyer {
    const notary: NotaryResponse
    const acceptablePrice: CurrencyAmount
    const typeToBuy: StateKind
    const anonymous: bool
    const ourIdentity: PartyAndCertificate
    const tracker: ProgressTracker
    /** The buyer's identity service. */
    var ids: IdentityMap

    constructor (notary: NotaryResponse, acceptablePrice: CurrencyAmount, typeToBuy: StateKind, anonymous: bool,
                 ourIdentity: PartyAndCertificate, ids: IdentityMap)
      ensures this.notary == notary && this.acceptablePrice == acceptablePrice && this.typeToBuy == typeToBuy
      ensures this.anonymous == anonymous && this.ourIdentity == ourIdentity && this.ids == ids
      ensures fresh(tracker) && tracker.steps == BuyerSteps && tracker.Valid() && tracker.changes == []
    {
      this.notary, this.acceptablePrice, this.typeToBuy, this.anonymous := notary, acceptablePrice, typeToBuy, anonymous;
      this.ourIdentity, this.ids := ourIdentity, ids;
      tracker := new ProgressTracker(BuyerSteps);
    }

    /** The identity the asset is moved to, registering a fresh one. */
    method ChooseIdentity(freshIdentity: PartyAndCertificate) returns (identity: PartyAndCertificate)
      requires anonymous ==> freshIdentity.certifiedAs == ourIdentity.party
      modifies this
      ensures identity == BuyerIdentity(anonymous, ourIdentity, freshIdentity)
      ensures ids == if anonymous then RegisterIdentity(old(ids), freshIdentity) else old(ids)
    {
      if anonymous {
        ids := RegisterIdentity(ids, freshIdentity);
        identity := freshIdentity;
      } else {
        identity := ourIdentity;
      }
    }

    /** `receiveAndValidateTradeRequest`: receive the seller's offer and
        validate it. */
    method ReceiveAndValidateTradeRequest(seller: Seller) returns (asset: OwnableRef, info: SellerTradeInfo, valid: Outcome)
      requires tracker != seller.tracker
      requires tracker.Valid() && tracker.steps == BuyerSteps && tracker.currentStep.None?
      requires seller.tracker.Valid() && seller.tracker.steps == SellerSteps && seller.tracker.currentStep.None?
      modifies this, tracker, seller.tracker
      ensures asset == seller.assetToSell && info == SellerTradeInfo(seller.price, seller.myParty)
      ensures valid == ValidateTradeRequest(old(ids), seller.node, asset.state, info, acceptablePrice, typeToBuy)
      ensures ids == ReceivedIds(old(ids), seller.node, asset.state, info)
      ensures tracker.Valid() && tracker.changes == [Receiving, Verifying] && tracker.currentStep == Some(Verifying)
      ensures seller.tracker.changes == SellerSteps
    {
      tracker.SetCurrentStep(Receiving);
      var assets;
      assets, info := seller.Offer();
      asset := assets[0];
      tracker.SetCurrentStep(Verifying);
      valid := ValidateTradeRequest(ids, seller.node, asset.state, info, acceptablePrice, typeToBuy);
      ids := ReceivedIds(ids, seller.node, asset.state, info);
    }

    /** From the co-signing on: sync identities, collect the seller's
        signature, record. */
    method CollectAndRecord(seller: Seller, tx: Tx, keys: seq<Key>) returns (r: Result<SignedTx>, steps: nat)
      requires tracker != seller.tracker
      requires tracker.Valid() && tracker.steps == BuyerSteps && tracker.currentStep == Some(Signing)
      modifies tracker, seller
      ensures CoSign(ids, old(seller.ids), seller.node, tx, keys, seller.price, seller.myParty, notary) == TradeOutcome(r, steps)
      ensures seller.ids == Merge(old(seller.ids), IdentitiesToSync(ids, tx))
      ensures 4 <= steps <= 5 && tracker.changes == old(tracker.changes) + BuyerSteps[3..steps]
    {
      var partlySignedTx := SignInitial(tx, KeySet(keys));
      var synced := IdentitiesToSync(ids, tx);
      tracker.SetCurrentStep(CollectingSignatures);
      var sellerSigned := seller.SignProposal(partlySignedTx, synced, seller.node.owningKey);
      assert sellerSigned == SignTransaction(partlySignedTx, SellerCheck(Merge(old(seller.ids), synced), partlySignedTx,
                                                                        seller.myParty, seller.price), seller.node.owningKey);
      BuyerStepsFirst();
      if sellerSigned.Err? {
        return Err(sellerSigned.error), 4;
      }
      tracker.SetCurrentStep(Recording);
      r := Finality(sellerSigned.value, notary);
      steps := 5;
      BuyerStepsAppend(old(tracker.changes), 3, 4, 5);
    }

    /** Move on to signing and assemble the shared transaction. */
    method SignStep(asset: OwnableRef, info: SellerTradeInfo, identity: PartyAndCertificate,
                    coins: seq<StateAndRef>, changeOwner: Party, now: int)
      returns (keys: Result<seq<Key>>, ptx: TransactionBuilder)
      requires tracker.Valid() && tracker.steps == BuyerSteps && tracker.currentStep == Some(Verifying)
      modifies tracker
      ensures fresh(ptx)
      ensures keys.Ok? ==> SharedTx(coins, info, asset, identity.party, changeOwner, now) == Ok((ptx.Contents(), keys.value))
      ensures keys.Err? ==> SharedTx(coins, info, asset, identity.party, changeOwner, now) == Err(keys.error)
      ensures tracker.Valid() && tracker.currentStep == Some(Signing) && tracker.changes == old(tracker.changes) + [Signing]
    {
      tracker.SetCurrentStep(Signing);
      keys, ptx := AssembleSharedTx(coins, info, asset, identity.party, changeOwner, now);
    }

    /** From the assembly on: build and sign the shared transaction, have
        the seller co-sign it, record. */
    method AssembleCollectAndRecord(seller: Seller, asset: OwnableRef, info: SellerTradeInfo, identity: PartyAndCertificate,
                                    coins: seq<StateAndRef>, changeOwner: Party, now: int)
      returns (r: Result<SignedTx>, steps: nat)
      requires tracker != seller.tracker
      requires tracker.Valid() && tracker.steps == BuyerSteps && tracker.currentStep == Some(Verifying)
      modifies tracker, seller
      ensures Assemble(ids, old(seller.ids), seller.node, asset, info, identity, coins, changeOwner, now,
                       seller.price, seller.myParty, notary) == TradeOutcome(r, steps)
      ensures seller.ids == if CanPay(coins, info.price)
                            then Merge(old(seller.ids), IdentitiesToSync(ids, SharedTx(coins, info, asset, identity.party, changeOwner, now).value.0))
                            else old(seller.ids)
      ensures 3 <= steps <= 5 && tracker.changes == old(tracker.changes) + BuyerSteps[2..steps]
    {
      var keys, ptx := SignStep(asset, info, identity, coins, changeOwner, now);
      BuyerStepsFirst();
      if keys.Err? {
        return Err(keys.error), 3;
      }
      r, steps := CollectAndRecord(seller, ptx.Contents(), keys.value);
      BuyerStepsAppend(old(tracker.changes), 2, 3, steps);
    }

    /** `Buyer.call` against `seller`.  The fresh identity the buyer would
        make (certified as the buyer's own), the coins its vault would select,
        the owner of the change and the clock are parameters. */
    method Call(seller: Seller, freshIdentity: PartyAndCertificate, coins: seq<StateAndRef>, changeOwner: Party, now: int)
      returns (r: Result<SignedTx>)
      requires tracker != seller.tracker
      requires tracker.Valid() && tracker.steps == BuyerSteps && tracker.currentStep.None?
      requires seller.tracker.Valid() && seller.tracker.steps == SellerSteps && seller.tracker.currentStep.None?
      requires anonymous ==> freshIdentity.certifiedAs == ourIdentity.party
      modifies this, tracker, seller, seller.tracker
      ensures seller.tracker.changes == SellerSteps
      ensures var info := SellerTradeInfo(seller.price, seller.myParty);
              var outcome := Trade(ValidateTradeRequest(old(ids), seller.node, seller.assetToSell.state, info, acceptablePrice, typeToBuy),
                                   ids, old(seller.ids), seller.node, seller.assetToSell, info,
                                   BuyerIdentity(anonymous, ourIdentity, freshIdentity), coins, changeOwner, now,
                                   seller.price, seller.myParty, notary);
              r == outcome.result && tracker.changes == BuyerSteps[..outcome.buyerSteps]
      ensures var info := SellerTradeInfo(seller.price, seller.myParty);
              var received := ReceivedIds(old(ids), seller.node, seller.assetToSell.state, info);
              ids == if anonymous && ValidateTradeRequest(old(ids), seller.node, seller.assetToSell.state, info, acceptablePrice, typeToBuy) == Pass
                     then RegisterIdentity(received, freshIdentity) else received
      ensures var info := SellerTradeInfo(seller.price, seller.myParty);
              seller.ids == if ValidateTradeRequest(old(ids), seller.node, seller.assetToSell.state, info, acceptablePrice, typeToBuy) == Pass &&
                               CanPay(coins, info.price)
                            then Merge(old(seller.ids), IdentitiesToSync(ids, SharedTx(coins, info, seller.assetToSell,
                                                                                       BuyerIdentity(anonymous, ourIdentity, freshIdentity).party,
                                                                                       changeOwner, now).value.0))
                            else old(seller.ids)
    {
      var asset, info, valid := ReceiveAndValidateTradeRequest(seller);
      BuyerStepsFirst();
      if valid.Fail? {
        return Err(valid.error);
      }
      var identity := ChooseIdentity(freshIdentity);
      var steps;
      r, steps := AssembleCollectAndRecord(seller, asset, info, identity, coins, changeOwner, now);
      BuyerStepsAppend([], 0, 2, steps);
    }
  }
}
