/** Values shared by the contracts and the flows: keys and parties, amounts of
    currency, time windows, the identity service and the failures that Corda's
    `require`, `requireThat`, `single()` and flow exceptions raise. */
module Base {

  datatype Option<+T> = None | Some(value: T)

  /** A computation that either yields a value or raises a failure. */
  datatype Result<+T> = Ok(value: T) | Err(error: Failure)

  /** The outcome of a check that returns nothing and may raise a failure. */
  datatype Outcome = Pass | Fail(error: Failure)

  /** An opaque public key; `NullKey` is Corda's `NullKeys.NullPublicKey`. */
  datatype Key = NullKey | PublicKey(id: nat)

  /** A well-known or anonymous party.  Corda's `AbstractParty` compares by its
      owning key alone, so a party is represented by that key; whether it is
      well known is what the identity service says about the key. */
  datatype Party = Party(owningKey: Key)

  /** `AnonymousParty(NullKeys.NullPublicKey)`. */
  const NullParty: Party := Party(NullKey)

  /** A party together with an opaque reference (bytes) it issued under. */
  datatype PartyAndReference = PartyAndReference(party: Party, reference: seq<bv8>)

  /** An identity with its certificate path.  Of the path only the party it
      certifies the identity as is modelled: the well-known party whose
      certificate issued a confidential identity's, and the identity itself
      when it is well known. */
  datatype PartyAndCertificate = PartyAndCertificate(party: Party, certifiedAs: Party)

  datatype Currency = Currency(code: string)

  /** The token of an `Amount`: a bare currency, or a currency issued by a party. */
  datatype Token = Plain(currency: Currency) | Issued(issuer: PartyAndReference, product: Currency)

  /** Corda's `Amount<T>`: a non-negative quantity of a token.  Equality is
      data-class equality (quantity and token); the display token size is
      determined by the token. */
  datatype Amount = Amount(quantity: nat, token: Token)

  /** `Amount<Issued<Currency>>` */
  type IssuedAmount = a: Amount | a.token.Issued?
    witness Amount(0, Issued(PartyAndReference(NullParty, []), Currency([])))

  /** `Amount<Currency>` */
  type CurrencyAmount = a: Amount | a.token.Plain?
    witness Amount(0, Plain(Currency([])))

  /** `Amount<Issued<Currency>>.withoutIssuer()` */
  function WithoutIssuer(a: IssuedAmount): CurrencyAmount {
    Amount(a.quantity, Plain(a.token.product))
  }

  /** `Amount.plus`: the tokens must agree. */
  function Plus(a: Amount, b: Amount): (r: Result<Amount>)
    ensures r.Ok? <==> a.token == b.token
    ensures r.Ok? ==> r.value.token == a.token && r.value.quantity == a.quantity + b.quantity
  {
    if a.token != b.token then Err(TokenMismatch) else Ok(Amount(a.quantity + b.quantity, a.token))
  }

  /** `a > b` on amounts (`Amount.compareTo`, which checks the tokens first). */
  function Exceeds(a: Amount, b: Amount): (r: Result<bool>)
    ensures r.Ok? <==> a.token == b.token
    ensures r.Ok? ==> (r.value <==> a.quantity > b.quantity)
  {
    if a.token != b.token then Err(TokenMismatch) else Ok(a.quantity > b.quantity)
  }

  /** Corda's `TimeWindow`: at least one of the bounds is present; `untilTime`
      is exclusive.  Instants are integers (seconds). */
  datatype TimeWindow = TimeWindow(fromTime: Option<int>, untilTime: Option<int>)

  /** `TimeWindow.between(fromTime, untilTime)` */
  function Between(fromTime: int, untilTime: int): TimeWindow
    requires fromTime < untilTime
  {
    TimeWindow(Some(fromTime), Some(untilTime))
  }

  /** `TimeWindow.withTolerance(instant, tolerance)`, which is
      `between(instant - tolerance, instant + tolerance)`. */
  function WithTolerance(instant: int, tolerance: nat): (w: TimeWindow)
    requires tolerance > 0
    ensures Contains(w, instant)
    ensures w.fromTime.Some? && w.untilTime.Some? && w.untilTime.value - w.fromTime.value == 2 * tolerance
  {
    Between(instant - tolerance, instant + tolerance)
  }

  /** `TimeWindow.contains(instant)` */
  predicate Contains(w: TimeWindow, instant: int) {
    (w.fromTime.Some? ==> w.fromTime.value <= instant) &&
    (w.untilTime.Some? ==> instant < w.untilTime.value)
  }

  /** `timeWindow?.untilTime` */
  function UntilTime(w: Option<TimeWindow>): Option<int> {
    if w.Some? then w.value.untilTime else None
  }

  /** Kotlin's `Int`. */
  newtype Int32 = x: int | -0x8000_0000 <= x < 0x8000_0000

  /** The identity service: which key belongs to which well-known party. */
  type IdentityMap = map<Key, Party>

  /** `identityService.wellKnownPartyFromAnonymous(party)`, null as `None`. */
  function WellKnownPartyFromAnonymous(ids: IdentityMap, party: Party): Option<Party> {
    if party.owningKey in ids then Some(ids[party.owningKey]) else None
  }

  /** The class of a state, as `typeToBuy` and `isInstance` see it. */
  datatype StateKind = PaperKind | CashKind | IouKind

  /** The command classes a contract selects with `requireSingleCommand<T>`. */
  datatype CommandClass = PaperCommands | IouCreateClass | CashCommands

  /** The message of every check that fails with one; `Text` gives the
      message itself. */
  datatype Message =
    // CommercialPaper.verify
    | IssuanceTimestamped | RedemptionTimestamped | IssuedBySigner | ValuesPositive
    | MaturityNotInPast | NoReissue | SignedByOwner | Propagated | Matured
    | ReceivedFaceValue | Destroyed | Unrecognised
    // IOUContract.verify
    | NoInputs | OneOutput | NonNegative | DistinctParties | TwoSigners | BothSign
    // IOUFlow.Responder.checkTransaction
    | MustBeIou | TooHigh
    // TwoPartyTradeFlow.Seller's checkTransaction
    | WrongCash
    // Kotlin's require(cond) without a message
    | RequireFailed

  function Text(m: Message): string {
    match m
    case IssuanceTimestamped => "Issuance must be timestamped"
    case RedemptionTimestamped => "Redemption must be timestamped"
    case IssuedBySigner => "output states are issued by a command signer"
    case ValuesPositive => "output values sum to be positive"
    case MaturityNotInPast => "the maturity date is not in the past"
    case NoReissue => "cannot reissue an existing state"
    case SignedByOwner => "the transaction is signed by the owner of the CP"
    case Propagated => "the state is propagated"
    case Matured => "the paper must have matured"
    case ReceivedFaceValue => "the received amount equals the face value"
    case Destroyed => "the paper must be destroyed"
    case Unrecognised => "Unrecognised command"
    case NoInputs => "No inputs should be consumed when issuing an IOU."
    case OneOutput => "There should be one output state of type IOUState."
    case NonNegative => "The IOU's value should be non-negative."
    case DistinctParties => "The lender and the borrower cannot be the same entity."
    case TwoSigners => "There must be two signers"
    case BothSign => "The borrower and lender must be signers."
    case MustBeIou => "This must be an IOU transaction."
    case TooHigh => "The IOU's value can't be too high."
    case WrongCash => "Transaction is not sending us the right amount of cash"
    case RequireFailed => "Failed requirement."
  }

  /** What a contract, a flow or the Kotlin library raises. */
  datatype Failure =
    | Requirement(message: Message)               // requireThat { message using cond }
    | Illegal(message: Message)                   // IllegalArgumentException(message), require(cond)
    | MissingCommand(commandClass: CommandClass)  // requireSingleCommand found no command of the class
    | EmptyList                                   // single() of an empty list
    | SeveralElements                             // single() of a list with several elements
    | EmptySum                                    // sumOrThrow() of no amounts
    | TokenMismatch                               // arithmetic or comparison across tokens
    | InsufficientBalance                         // the cash selected cannot pay the amount
    | UnknownParticipant(participant: Party)      // a state involves a party nobody knows
    | UnacceptablePrice(price: Amount)            // UnacceptablePriceException
    | AssetMismatch(expectedType: StateKind, actualType: StateKind)  // AssetMismatchException
    | FlowFailure(message: Message)               // FlowException(message)
    | MissingSignatures(keys: set<Key>)           // required signers that have not signed
    | NotaryConflict(conflictingTx: nat)          // the notary saw an input consumed before

  /** `single()` of a list. */
  function Single<T>(xs: seq<T>): (r: Result<T>)
    ensures r.Ok? <==> |xs| == 1
    ensures r.Ok? ==> r.value == xs[0]
    ensures r.Err? ==> r.error == (if xs == [] then EmptyList else SeveralElements)
  {
    if |xs| == 0 then Err(EmptyList) else if |xs| > 1 then Err(SeveralElements) else Ok(xs[0])
  }
}
