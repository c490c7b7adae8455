# Corda commercial paper and IOU contracts, and the trade and IOU flows

A Dafny model of the transaction validators of a Corda CorDapp, and of the
flow logic that builds and checks transactions for them:

- **CommercialPaper** (`commercial_paper.dfy`, `paper_state.dfy`).
  - `verify` groups the paper states of a transaction by lineage, that is
    every field but the owner. It requires one commercial paper command and
    checks every group under that command's Issue, Move or Redeem rules, in
    order. The first broken rule is reported, with its message.
  - `generateIssuance`, `generateMove` and `generateRedeem` fill a
    transaction builder in place. The model proves that what they build
    passes those rules under the conditions each needs.
- **IOUContract** (`iou_contract.dfy`, `iou_state.dfy`). One `Create`
  command; no inputs; one IOU output of a non-negative value, between two
  distinct parties who are exactly the two signers.
- **TwoPartyTradeFlow** (`two_party_trade.dfy`).
  - The buyer validates the seller's offer.
  - The buyer assembles the shared transaction on a transaction builder.
  - The seller checks the transaction before co-signing it.
  - The `Seller` and `Buyer` roles are classes. Their progress trackers
    record every change of step, and their identity services are maps that
    the flows update.
- **IOUFlow** (`iou_flow.dfy`).
  - The initiator builds, verifies, signs, collects and finalises the IOU.
  - The responder signs only an IOU worth at most 100.

The shared vocabulary sits in three further files:
- Keys, parties, amounts, time windows and failures are in `base.dfy`.
- The ledger is in `ledger.dfy`: states, commands, transactions, `sumCashBy`,
  `Cash.generateSpend` and the `TransactionBuilder` class.
- `flow_library.dfy` abstracts what the flows use from Corda's flow library:
  - signing;
  - `SignTransactionFlow`;
  - `FinalityFlow`, with the notary's answer as a parameter.

Modelling choices:
- **Parties.** A party is its owning key. Corda compares parties by that key
  alone, so structural equality here is Kotlin's `==`.
- **Amounts.** An amount is a quantity with a token. The token is a plain
  currency or an issued one. The subset types `IssuedAmount` and
  `CurrencyAmount` stand for `Amount<Issued<Currency>>` and
  `Amount<Currency>`. Equality compares quantity and token, as data-class
  equality does.
- **Time.** Instants are integers, in seconds.
- **Failures.** Every failure is a constructor of `Failure`. A failure with
  a message carries a `Message`, and `Text` gives that message's exact
  string. A missing command names its class, and an asset mismatch names
  both kinds, by enumeration.
- **Kotlin `Int`** is the newtype `Int32`.

Points where the code behaves in a way easy to miss, which the model
follows:
- Redemption compares the time window's *upper* bound with the maturity
  date: the end of the window must be at or after maturity
  (`CommercialPaper.kt:92`). The window's start plays no part.
- A move does not require the new owner to differ from the old one
  (`CommercialPaper.kt:72-81`).
- `setTimeWindow(now, 30.seconds)` is Corda's `withTolerance`, so the window
  runs from `now - 30` to `now + 30` (`TwoPartyTradeFlow.kt:195`). It does
  not start at `now`.
- A redemption that pays the owner no cash at all fails in `sumCashBy`, which
  cannot sum an empty list. It does not fail on the face value rule.
- "Unrecognised command" needs a commercial paper command other than the
  three, and at least one paper state. With no paper the loop over the
  groups never runs.
- The buyer registers the seller's pay-to identity before checking it
  (`TwoPartyTradeFlow.kt:163-166`). A confidential pay-to identity is
  accepted when its certificate names the seller and the buyer knows the
  seller. The registration stays in the buyer's identity service and is
  among the identities synced to the seller.

## Model

| member | source | states |
|---|---|---|
| PaperState.WithoutOwner | cordapp/src/main/kotlin/com/template/CommercialPaper.kt:36 | the grouping key has the null party as owner and keeps every other field |
| PaperState.WithNewOwner | cordapp/src/main/kotlin/com/template/CommercialPaper.kt:37 | the result is a `Move` command and the same lineage under the new owner |
| PaperState.WithoutOwnerIsLineage | cordapp/src/main/kotlin/com/template/CommercialPaper.kt:51-52 | two papers share a grouping key exactly when they agree on every field but the owner |
| PaperState.WithNewOwnerKeepsGroup | cordapp/src/main/kotlin/com/template/CommercialPaper.kt:36-37 | a moved paper stays in its group, and blanking the owner is idempotent |
| IouState.Participants | cordapp-contracts-states/src/main/kotlin/com/template/StatesAndContracts.kt:45 | the participants are exactly the lender, then the borrower |
| Base.WithTolerance | cordapp/src/main/kotlin/com/template/TwoPartyTradeFlow.kt:195 | the window contains the instant and is twice the tolerance wide |
| Base.Exceeds | cordapp/src/main/kotlin/com/template/TwoPartyTradeFlow.kt:168 | comparing amounts fails across tokens, and otherwise compares the quantities |
| Ledger.SelectMembers | cordapp/src/main/kotlin/com/template/CommercialPaper.kt:53 | the selected commands are exactly the transaction's commands of the class |
| Ledger.SelectConcat | cordapp/src/main/kotlin/com/template/CommercialPaper.kt:53 | selecting from two lists of commands is selecting from each in turn |
| Ledger.RequireSingleCommand | cordapp/src/main/kotlin/com/template/CommercialPaper.kt:53 | succeeds exactly with one command of the class and yields it; no command is a missing-command failure naming the class, several are a `single()` failure |
| Ledger.WithNewOwner | cordapp/src/main/kotlin/com/template/TwoPartyTradeFlow.kt:188 | an ownable state moved to a new owner keeps its kind; paper keeps its lineage under a `Move`, cash keeps its amount under a cash move |
| Ledger.RequiredSigners | cordapp/src/main/kotlin/com/template/TwoPartyTradeFlow.kt:145 | the required signers are exactly the keys some command lists |
| Ledger.SumOrThrowSpec | cordapp/src/main/kotlin/com/template/CommercialPaper.kt:88 | a sum of cash succeeds exactly when there is at least one amount and all share a token; it then has that token and the total quantity; no amount is `EmptySum`, mixed tokens `TokenMismatch` |
| Ledger.CashAmountsOfConcat | cordapp/src/main/kotlin/com/template/CommercialPaper.kt:88 | the cash owned by a party in two lists of states is its cash in each, in turn |
| Ledger.GenerateSpend | cordapp/src/main/kotlin/com/template/CommercialPaper.kt:122-128 | a spend succeeds exactly when the coins can pay; it consumes the coins, pays the amount in the coins' token to the payee first, sends any change to the change owner, and is signed by the coins' owners |
| Ledger.SpendPaysExactly | cordapp/src/main/kotlin/com/template/CommercialPaper.kt:122-128 | the cash a spend pays to the payee sums to the amount exactly |
| Ledger.TransactionBuilder.WithItems | cordapp/src/main/kotlin/com/template/CommercialPaper.kt:108 | appends the output, then the command, and changes nothing else |
| Ledger.TransactionBuilder.AddInputState | cordapp/src/main/kotlin/com/template/CommercialPaper.kt:112 | appends the input and changes nothing else |
| Ledger.TransactionBuilder.AddCommand | cordapp/src/main/kotlin/com/template/CommercialPaper.kt:131 | appends the command and changes nothing else |
| Ledger.TransactionBuilder.AddOutputState | cordapp/src/main/kotlin/com/template/TwoPartyTradeFlow.kt:189 | appends the output and changes nothing else |
| Ledger.TransactionBuilder.SetTimeWindow | cordapp/src/main/kotlin/com/template/TwoPartyTradeFlow.kt:195 | sets the time window and changes nothing else |
| Ledger.TransactionBuilder.GenerateSpendInto | cordapp/src/main/kotlin/com/template/TwoPartyTradeFlow.kt:184 | on success adds the spend and returns the cash signing keys; when the coins cannot pay, fails with `InsufficientBalance` and leaves the builder unchanged |
| CommercialPaper.PaperStatesOf | cordapp/src/main/kotlin/com/template/CommercialPaper.kt:52 | the paper states of a list are exactly its `Paper` elements |
| CommercialPaper.WithKey | cordapp/src/main/kotlin/com/template/CommercialPaper.kt:52 | a group's states are exactly the states with its grouping key |
| CommercialPaper.KeysOfSpec | cordapp/src/main/kotlin/com/template/CommercialPaper.kt:52 | the group keys are distinct and are exactly the keys of the states |
| CommercialPaper.KeysOfOrder | cordapp/src/main/kotlin/com/template/CommercialPaper.kt:52 | each lineage key appears among the states, and the keys come in order of their first appearance |
| CommercialPaper.FirstKeyIndexIs | cordapp/src/main/kotlin/com/template/CommercialPaper.kt:52 | a lineage's first appearance is the one index where it appears with no earlier appearance |
| CommercialPaper.GroupStatesSpec | cordapp/src/main/kotlin/com/template/CommercialPaper.kt:52 | no lineage has two groups; every state's lineage has a group; each group holds exactly that lineage's inputs and outputs, and at least one state; the groups come in order of first appearance among the inputs followed by the outputs |
| CommercialPaper.CheckGroupsSpec | cordapp/src/main/kotlin/com/template/CommercialPaper.kt:57-101 | the loop passes exactly when every group passes, and a failure is that of the first failing group |
| CommercialPaper.PaperCommand | cordapp/src/main/kotlin/com/template/CommercialPaper.kt:53 | present exactly when the transaction has one commercial paper command, which it is |
| CommercialPaper.VerifyPassIff | cordapp/src/main/kotlin/com/template/CommercialPaper.kt:50-102 | verification passes exactly when there is one paper command and every paper's lineage passes its rules, whatever the group order |
| CommercialPaper.VerifyReportsFirstFailure | cordapp/src/main/kotlin/com/template/CommercialPaper.kt:53-101 | a failure is the command failure, or the failure of the first failing group, with every earlier group passing |
| CommercialPaper.IssuePassIff | cordapp/src/main/kotlin/com/template/CommercialPaper.kt:59-69 | an issue passes exactly when no paper is consumed and each issued paper is alone in its lineage, issued by a signer, positive in value and maturing after the window closes |
| CommercialPaper.CheckIssueWithInputs | cordapp/src/main/kotlin/com/template/CommercialPaper.kt:68 | a group with an input never passes the issue rules |
| CommercialPaper.CheckIssueReportsFirstBrokenRule | cordapp/src/main/kotlin/com/template/CommercialPaper.kt:59-69 | the issue rules are checked in order (one output, a window with an end, an issuer among the signers, a positive face value, maturity after the window, no input) and the first broken one is the failure reported |
| CommercialPaper.IssueLineageOfInput | cordapp/src/main/kotlin/com/template/CommercialPaper.kt:68 | a consumed paper's lineage fails under `Issue` |
| CommercialPaper.IssueLineageOfOutput | cordapp/src/main/kotlin/com/template/CommercialPaper.kt:59-69 | with no inputs, an issued paper's lineage passes exactly when it is alone and meets the issue rules |
| CommercialPaper.MovePassIff | cordapp/src/main/kotlin/com/template/CommercialPaper.kt:72-81 | a move passes exactly when every lineage has one input, signed for by its owner, and one output |
| CommercialPaper.CheckMovePassIff | cordapp/src/main/kotlin/com/template/CommercialPaper.kt:72-81 | one group passes the move rules exactly when it has one input signed for by its owner and one output |
| CommercialPaper.CheckMoveReportsFirstBrokenRule | cordapp/src/main/kotlin/com/template/CommercialPaper.kt:72-81 | the move rules are checked in order (one input, signed by its owner, one output) and the first broken one is the failure reported |
| CommercialPaper.MoveRejectsChangedLineage | cordapp/src/main/kotlin/com/template/CommercialPaper.kt:79-80 | a moved paper that no output continues in the same lineage makes the move fail |
| CommercialPaper.MoveOfAlteredPaperIsNotPropagated | cordapp/src/main/kotlin/com/template/CommercialPaper.kt:77 | a signed move of one paper into one altered paper fails "the state is propagated" |
| CommercialPaper.RedeemPassIff | cordapp/src/main/kotlin/com/template/CommercialPaper.kt:84-96 | a redemption passes exactly when no paper is produced and each redeemed paper is alone in its lineage, matured by the window's end, paid its issued face value exactly to its owner and signed for by that owner |
| CommercialPaper.RedeemRejectsOutputs | cordapp/src/main/kotlin/com/template/CommercialPaper.kt:94 | a group with an output never passes the redemption rules |
| CommercialPaper.RedeemLineageOfOutput | cordapp/src/main/kotlin/com/template/CommercialPaper.kt:94 | a produced paper's lineage fails under `Redeem` |
| CommercialPaper.CheckRedeemPassIff | cordapp/src/main/kotlin/com/template/CommercialPaper.kt:84-96 | a group with no outputs passes the redemption rules exactly when it has one input that meets them |
| CommercialPaper.CheckRedeemReportsFirstBrokenRule | cordapp/src/main/kotlin/com/template/CommercialPaper.kt:84-96 | the redemption rules are checked in order (one input, the cash to its owner summed, a window with an end, matured, the face value received, no output, signed by the owner) and the first broken one is the failure reported |
| CommercialPaper.RedeemLineageOfInput | cordapp/src/main/kotlin/com/template/CommercialPaper.kt:84-96 | with no paper outputs, a redeemed paper's lineage passes exactly when it is alone and meets the redemption rules |
| CommercialPaper.UnrecognisedCommand | cordapp/src/main/kotlin/com/template/CommercialPaper.kt:99 | another command fails "Unrecognised command" when there is paper, and passes when there is none |
| CommercialPaper.IssuanceTx | cordapp/src/main/kotlin/com/template/CommercialPaper.kt:104-109 | the issuance holds one paper owned by its issuer and an issue command signed by the issuer, and nothing else |
| CommercialPaper.GenerateIssuance | cordapp/src/main/kotlin/com/template/CommercialPaper.kt:104-109 | builds a fresh builder holding the issuance transaction |
| CommercialPaper.IssuanceVerifiesIff | cordapp/src/main/kotlin/com/template/CommercialPaper.kt:104-109 | an issuance with a window verifies exactly when its value is positive and it matures after the window; without one it fails as untimestamped |
| CommercialPaper.MoveTx | cordapp/src/main/kotlin/com/template/CommercialPaper.kt:111-118 | a move appends the paper as an input, the paper under its new owner as an output, and a move signed by the old owner |
| CommercialPaper.GenerateMove | cordapp/src/main/kotlin/com/template/CommercialPaper.kt:111-118 | the builder afterwards holds the move added to what it held |
| CommercialPaper.MoveTxPapers | cordapp/src/main/kotlin/com/template/CommercialPaper.kt:111-118 | a move added to a transaction without paper has that paper as its only input paper, the moved paper as its only output paper, and the move as its paper command |
| CommercialPaper.GeneratedMoveVerifies | cordapp/src/main/kotlin/com/template/CommercialPaper.kt:111-118 | a move added to a transaction without other paper or paper commands verifies |
| CommercialPaper.RedeemTx | cordapp/src/main/kotlin/com/template/CommercialPaper.kt:120-134 | a redemption appends the cash spend, then the paper as an input and a redeem command signed by its owner |
| CommercialPaper.GenerateRedeem | cordapp/src/main/kotlin/com/template/CommercialPaper.kt:120-134 | pays the face value without its issuer to the owner and consumes the paper; when the coins cannot pay, fails with `InsufficientBalance` and leaves the builder unchanged |
| CommercialPaper.GeneratedRedeemShape | cordapp/src/main/kotlin/com/template/CommercialPaper.kt:120-134 | a generated redemption's only paper is the redeemed input, its command is the redeem, and it pays the owner the face value in the coins' token |
| CommercialPaper.GeneratedRedeemVerifies | cordapp/src/main/kotlin/com/template/CommercialPaper.kt:120-134 | a generated redemption verifies when the coins carry the paper's own issued token and the window ends at or after maturity |
| CommercialPaper.RedeemWithOtherIssuerFails | cordapp/src/main/kotlin/com/template/CommercialPaper.kt:93 | paid in cash of another issuer, a generated redemption fails "the received amount equals the face value" |
| CommercialPaperTest.SimpleCPDoesntCompile | cordapp/src/test/kotlin/com/template/CommercialPaperTest.kt:46-58 | a paper input with no command fails for the missing command |
| CommercialPaperTest.SimpleCPMoveFailureAndSuccess | cordapp/src/test/kotlin/com/template/CommercialPaperTest.kt:60-76 | a move with no output fails "the state is propagated"; with Alice's paper as output it verifies |
| CommercialPaperTest.SimpleIssuanceWithTweak | cordapp/src/test/kotlin/com/template/CommercialPaperTest.kt:85-90 | issued under Alice's signature, the paper fails "output states are issued by a command signer" |
| CommercialPaperTest.SimpleIssuance | cordapp/src/test/kotlin/com/template/CommercialPaperTest.kt:92-95 | issued under MegaCorp's signature, the paper verifies |
| CommercialPaperTest.IssuanceOfTestPaper | cordapp/src/test/kotlin/com/template/CommercialPaperTest.kt:78-97 | the test issuance under one signer is the issue rules applied to its one group |
| CommercialPaperTest.ChainCommercialPaperTradeToAlice | cordapp/src/test/kotlin/com/template/CommercialPaperTest.kt:118-127 | the commercial paper contract accepts the trade of the paper for Alice's cash |
| IouContract.IousOf | cordapp-contracts-states/src/main/kotlin/com/template/StatesAndContracts.kt:29 | the IOUs of a list are exactly its `Iou` elements |
| IouContract.VerifyPassIff | cordapp-contracts-states/src/main/kotlin/com/template/StatesAndContracts.kt:20-36 | verification passes exactly when every rule holds: one `Create`, no inputs, one IOU output, a non-negative value, distinct parties, two signers who are both parties |
| IouContract.VerifyReportsFirstBrokenRule | cordapp-contracts-states/src/main/kotlin/com/template/StatesAndContracts.kt:22-35 | no `Create` command fails naming the class and several fail `single()`, before any rule; then the rules are reported in order: inputs, the output, the value, the parties, two signers, and both parties among the signers |
| IouContract.SignersAreTheParties | cordapp-contracts-states/src/main/kotlin/com/template/StatesAndContracts.kt:33-34 | in a valid transaction the signers are the lender's and the borrower's keys, each once |
| IouContract.SignersAreParticipants | cordapp-contracts-states/src/main/kotlin/com/template/StatesAndContracts.kt:33-45 | in a valid transaction the signers are exactly the keys of the IOU's participants |
| FlowLibrary.VerifyContracts | cordapp/src/main/kotlin/com/template/IOUFlow.kt:40 | passes exactly when the paper contract passes whenever there is paper and the IOU contract passes whenever there is an IOU; when both fail, the model reports the paper failure |
| FlowLibrary.MissingSigners | cordapp/src/main/kotlin/com/template/IOUFlow.kt:52 | the missing signers are exactly the required signers that have not signed |
| FlowLibrary.SignInitial | cordapp/src/main/kotlin/com/template/IOUFlow.kt:43 | signing a transaction yields it with exactly the given signatures |
| FlowLibrary.SignTransaction | cordapp/src/main/kotlin/com/template/IOUFlow.kt:62-77 | the counterparty signs exactly when the contracts verify and its own check passes; it adds just its key, and reports the contract failure before the check's |
| FlowLibrary.Finality | cordapp/src/main/kotlin/com/template/IOUFlow.kt:52 | finality succeeds exactly when no signer is missing, the contracts verify, and the notary attests if one is needed; it adds only the notary's signature |
| FlowLibrary.FinalisedIsFullySigned | cordapp/src/main/kotlin/com/template/TwoPartyTradeFlow.kt:145 | a finalised transaction carries every required signature and verifies |
| IouFlow.InitiatorTx | cordapp/src/main/kotlin/com/template/IOUFlow.kt:32-37 | the initiator lends the IOU to the other party under a `Create` signed by both, with no inputs and no time window |
| IouFlow.InitiatorTxVerifiesIff | cordapp/src/main/kotlin/com/template/IOUFlow.kt:32-40 | the initiator's transaction verifies exactly when the value is not negative and the parties differ, and reports the failing rule otherwise |
| IouFlow.InitiatorTxContracts | cordapp/src/main/kotlin/com/template/IOUFlow.kt:40 | only the IOU contract runs on it, both parties must sign, and no notary is needed |
| IouFlow.ResponderCheckPassIff | cordapp/src/main/kotlin/com/template/IOUFlow.kt:67-73 | the responder accepts exactly one output that is an IOU worth at most 100; any other number of outputs fails `single()` |
| IouFlow.ResponderLimit | braid-app/index.js:40 | 99, the value the Braid client sends, is accepted, and so is 100; 101 is refused as too high |
| IouFlow.InitiatorCall | cordapp/src/main/kotlin/com/template/IOUFlow.kt:29-53 | the flow succeeds exactly when the value is within 0..100 and the parties differ, yielding the IOU signed by both after all four steps; a negative value stops before any step, a high one after signing |
| TwoPartyTrade.ProgressTracker.SetCurrentStep | cordapp/src/main/kotlin/com/template/TwoPartyTradeFlow.kt:120 | setting a step records it, unless it is already the current one |
| TwoPartyTrade.RegisterIdentity | cordapp/src/main/kotlin/com/template/TwoPartyTradeFlow.kt:165 | registering an identity adds its key, mapped to the party its certificate names unless the key was known, and keeps every known key's party |
| TwoPartyTrade.RegisteredPayTo | cordapp/src/main/kotlin/com/template/TwoPartyTradeFlow.kt:165 | the pay-to identity resolves to the party known for the key its certificate names, and to itself when that party is unknown |
| TwoPartyTrade.PayToResolution | cordapp/src/main/kotlin/com/template/TwoPartyTradeFlow.kt:163-166 | a pay-to identity certified as a seller the buyer knows resolves to the seller; one certified as an unknown party, under another key than the seller's, does not |
| TwoPartyTrade.ReceivedIds | cordapp/src/main/kotlin/com/template/TwoPartyTradeFlow.kt:159-166 | the pay-to identity is registered exactly when the asset's owner has resolved to the seller |
| TwoPartyTrade.ValidateTradeRequestPassIff | cordapp/src/main/kotlin/com/template/TwoPartyTradeFlow.kt:149-178 | the offer is accepted exactly when the asset resolves to the seller, the registered payee resolves to the seller, the price is in the buyer's currency and not above its ceiling, and the asset is of the wanted kind |
| TwoPartyTrade.ValidateTradeRequestOrder | cordapp/src/main/kotlin/com/template/TwoPartyTradeFlow.kt:159-174 | the checks come in order (owner, payee, the price's currency, the ceiling, the asset's kind) and each failure is reported only when the earlier checks pass; an unacceptable price is only ever reported above the ceiling, and a mismatched asset only within it |
| TwoPartyTrade.BuyerIdentity | cordapp/src/main/kotlin/com/template/TwoPartyTradeFlow.kt:125-129 | a buyer that is not anonymous is paid the asset to its own identity; an anonymous one to the fresh identity |
| TwoPartyTrade.SharedTx | cordapp/src/main/kotlin/com/template/TwoPartyTradeFlow.kt:181-198 | the assembly succeeds exactly when the coins can pay the price |
| TwoPartyTrade.SharedTxShape | cordapp/src/main/kotlin/com/template/TwoPartyTradeFlow.kt:184-195 | the assembled transaction consumes the coins and the asset, outputs the asset under the buyer's identity, moves it under the owner's signature, and has a window containing `now`, thirty seconds either side |
| TwoPartyTrade.AssembleSharedTx | cordapp/src/main/kotlin/com/template/TwoPartyTradeFlow.kt:181-198 | the fresh builder holds the assembled transaction, with the cash keys returned; or the assembly fails with `InsufficientBalance` |
| TwoPartyTrade.FirstUnknown | cordapp/src/main/kotlin/com/template/TwoPartyTradeFlow.kt:76-83 | none exactly when every participant of every state is known; otherwise an unknown participant of some state |
| TwoPartyTrade.FirstUnknownOf | cordapp/src/main/kotlin/com/template/TwoPartyTradeFlow.kt:78-82 | none exactly when every party is known; otherwise an unknown party among them |
| TwoPartyTrade.SellerCheckPassIff | cordapp/src/main/kotlin/com/template/TwoPartyTradeFlow.kt:74-89 | the seller signs exactly when it knows every participant and the cash paid to it is of one token and adds up to the price exactly, neither less nor more |
| TwoPartyTrade.SellerCheckAsWrittenRejectsAll | cordapp/src/main/kotlin/com/template/TwoPartyTradeFlow.kt:85 | the check as written passes nothing; when the corrected check passes, the written one fails "Transaction is not sending us the right amount of cash" |
| TwoPartyTrade.Seller.constructor | cordapp/src/main/kotlin/com/template/TwoPartyTradeFlow.kt:36-54 | a seller starts with a fresh tracker over its two steps, at no step |
| TwoPartyTrade.Seller.Offer | cordapp/src/main/kotlin/com/template/TwoPartyTradeFlow.kt:57-67 | the seller sends its asset and its price with its party, going through its two steps in order |
| TwoPartyTrade.Seller.SignProposal | cordapp/src/main/kotlin/com/template/TwoPartyTradeFlow.kt:69-93 | the seller registers the synced identities it did not know, then verifies, checks and signs |
| TwoPartyTrade.Merge | cordapp/src/main/kotlin/com/template/TwoPartyTradeFlow.kt:70 | known identities are kept and new ones are added |
| TwoPartyTrade.IdentitiesToSync | cordapp/src/main/kotlin/com/template/TwoPartyTradeFlow.kt:136 | the identities synced are those the buyer knows for the transaction's participants |
| TwoPartyTrade.TradeResult | cordapp/src/main/kotlin/com/template/TwoPartyTradeFlow.kt:118-146 | an invalid offer ends at step two and unpayable coins at step three; a successful trade records the assembled transaction, which moves the asset to the buyer and pays the seller its price, with the notary's attestation and exactly the signatures of the cash keys, the seller and the notary, which include every required signer |
| TwoPartyTrade.Buyer.constructor | cordapp/src/main/kotlin/com/template/TwoPartyTradeFlow.kt:100-116 | a buyer starts with a fresh tracker over its five steps, at no step |
| TwoPartyTrade.Buyer.ChooseIdentity | cordapp/src/main/kotlin/com/template/TwoPartyTradeFlow.kt:125-129 | the chosen identity is the buyer's identity, and an anonymous buyer registers its fresh identity, certified as its own, as any identity is registered |
| TwoPartyTrade.Buyer.ReceiveAndValidateTradeRequest | cordapp/src/main/kotlin/com/template/TwoPartyTradeFlow.kt:149-178 | the buyer receives the seller's asset and trade info and validates them against its identity service, which then holds the registered pay-to identity; the seller meanwhile goes through both its steps |
| TwoPartyTrade.Buyer.SignStep | cordapp/src/main/kotlin/com/template/TwoPartyTradeFlow.kt:131-133 | the buyer moves on to signing and assembles the shared transaction |
| TwoPartyTrade.Buyer.CollectAndRecord | cordapp/src/main/kotlin/com/template/TwoPartyTradeFlow.kt:134-145 | collecting the seller's signature and recording give the co-signing outcome, through steps four and possibly five; the seller's identity service gains the synced identities |
| TwoPartyTrade.Buyer.AssembleCollectAndRecord | cordapp/src/main/kotlin/com/template/TwoPartyTradeFlow.kt:131-145 | assembling, co-signing and recording give the assembly outcome, through steps three to five; the seller learns the synced identities exactly when the coins can pay |
| TwoPartyTrade.Buyer.Call | cordapp/src/main/kotlin/com/template/TwoPartyTradeFlow.kt:118-146 | the buyer's result and its recorded steps are the trade's outcome, a prefix of its five steps in order; the seller goes through both its steps; the buyer's identity service keeps the registered pay-to identity, and only an anonymous buyer with a valid offer adds a fresh identity; the seller learns the synced identities exactly when the trade reaches co-signing |

## Left out

- Cryptography. Signatures are sets of keys and keys are opaque, so signing and `freshKeyAndCert` are not modelled; the fresh identity is a parameter of `Buyer.Call`.
- Transport. `FlowSession` send and receive, `SendStateAndRefFlow` and `ReceiveStateAndRefFlow` become direct calls between the two role objects, in the order the flows exchange messages.
- Identity sync. `IdentitySyncFlow` is the merge of the buyer's identities for the transaction's participants into the seller's map.
- TwoPartyTrade.RegisteredPayTo: a certificate path is reduced to the party it certifies the identity as; validating the path, which can throw, is not modelled.
- Notary. Double-spend detection belongs to Corda's ledger; the notary's answer is a parameter of `Finality`, and the "Trade to Bob" double spend of the chain test is not modelled.
- `waitForLedgerCommit`. It waits on the node's vault; the seller's result is its signing outcome.
- Coin selection. The coins a vault would select are a parameter, and the cash contract's own `verify` is not modelled.
- The clock. `serviceHub.clock` is the parameter `now`.
- Suspendable fibers and the child tracker of `SignTransactionFlow`. Only the order of the steps is kept.
- `loadStates` order. The seller's check reads the inputs in transaction order, and only which participants are unknown matters here.
- The contract class name and notary of each `TransactionState`. Proposals, contract attachments and the notary given to `generateIssuance` are not modelled; `CP_PROGRAM_ID` and `IOU_CONTRACT_ID` are kept as constants.
- App.kt, Server.kt, IOUService.kt and braid-app/index.js. These are a REST endpoint, server bootstrap, a vault observable and an RPC client, all I/O; only the value 99 the client sends is used, in `IouFlow.ResponderLimit`.
- The integration test and ResolveTransactionsFlowTest.kt. They drive nodes, and the second is empty.
- Ledger.SumOrThrow: quantities are unbounded, so Kotlin's `Long` overflow in `Amount.plus` is not modelled.
- Ledger.GenerateSpend: pays from the coins given, in their one issued token, with at most one change output; Corda's spend over several issuers and states is not modelled.
- TwoPartyTrade.ValidateTradeRequest: `typeToBuy` is one of the three state kinds, so `isInstance` against a supertype such as `OwnableState` is not modelled.
- FlowLibrary.SignTransaction: Corda's own checks before `checkTransaction` are reduced to contract verification; which signatures are already present is not checked there.
- FlowLibrary.VerifyContracts: runs the paper and IOU contracts only; cash states are verified by no contract here.
- IouFlow.InitiatorCall: the notary is taken as given, because the IOU transaction never needs one; `networkMapCache` is not modelled.

## Findings

| source | as written | input that shows it | evidently intended | confidence | as-written member | corrected member |
|---|---|---|---|---|---|---|
| cordapp/src/main/kotlin/com/template/TwoPartyTradeFlow.kt:85 | the seller compares `sumCashBy(myParty.party)`, an `Amount<Issued<Currency>>`, with `price`, an `Amount<Currency>`; the tokens differ, so the amounts are never equal and the seller throws "Transaction is not sending us the right amount of cash" for every proposal | a transaction whose one output pays the seller 900 USD issued by MegaCorp, with a price of 900 USD | compare `received.withoutIssuer()` with `price` | high; not executed | TwoPartyTrade.SellerCheckAsWrittenRejectsAll | TwoPartyTrade.SellerCheckPassIff |

`TwoPartyTrade.SellerCheck` is the corrected check, and the rest of the model
uses it.
