/** The ledger vocabulary the contracts and flows share: the states a
    transaction can carry, commands with their signers, transactions, the
    cash helpers (`sumCashBy`, `Cash.generateSpend`) and the transaction
    builder that flows fill in place. */
module Ledger {
  import opened Base
  import PaperState
  import IouState

  /** A state on the ledger: a commercial paper, a cash state or an IOU. */
  datatype ContractState =
    | Paper(paper: PaperState.State)
    | Cash(amount: IssuedAmount, owner: Party)
    | Iou(iou: IouState.IOUState)

  /** `OwnableState`: paper and cash have an owner, an IOU does not. */
  type OwnableState = s: ContractState | !s.Iou?
    witness Cash(Amount(0, Issued(PartyAndReference(NullParty, []), Currency([]))), NullParty)

  function Owner(s: OwnableState): Party {
    if s.Paper? then s.paper.owner else s.owner
  }

  /** `ContractState.participants` */
  function Participants(s: ContractState): seq<Party> {
    match s
    case Paper(p) => [p.owner]
    case Cash(_, owner) => [owner]
    case Iou(iou) => IouState.Participants(iou)
  }

  function KindOf(s: ContractState): StateKind {
    match s
    case Paper(_) => PaperKind
    case Cash(_, _) => CashKind
    case Iou(_) => IouKind
  }

  /** The command values transactions carry. */
  datatype CommandData = CP(cp: PaperState.Commands) | IouCreate | CashMove

  /** A command and the keys that must sign for it. */
  datatype Command = Command(value: CommandData, signers: seq<Key>)

  /** `withNewOwner` of an ownable state: the command that moves it and the moved state. */
  function WithNewOwner(s: OwnableState, newOwner: Party): (r: (CommandData, OwnableState))
    ensures Owner(r.1) == newOwner && KindOf(r.1) == KindOf(s)
    ensures s.Paper? ==> r.0 == CP(PaperState.Move) && PaperState.SameLineage(r.1.paper, s.paper)
    ensures s.Cash? ==> r.0 == CashMove && r.1.amount == s.amount
  {
    if s.Paper? then
      var cs := PaperState.WithNewOwner(s.paper, newOwner);
      (CP(cs.command), Paper(cs.ownableState))
    else (CashMove, Cash(s.amount, newOwner))
  }

  predicate IsInstance(c: CommandData, cls: CommandClass) {
    match cls
    case PaperCommands => c.CP?
    case IouCreateClass => c.IouCreate?
    case CashCommands => c.CashMove?
  }

  /** The commands of one class, in order. */
  function Select(commands: seq<Command>, cls: CommandClass): (r: seq<Command>) {
    if commands == [] then []
    else (if IsInstance(commands[0].value, cls) then [commands[0]] else []) + Select(commands[1..], cls)
  }

  /** The selected commands are exactly the commands of the class. */
  lemma {:induction false} SelectMembers(commands: seq<Command>, cls: CommandClass)
    ensures forall c :: c in Select(commands, cls) <==> c in commands && IsInstance(c.value, cls)
  {
    if commands != [] {
      SelectMembers(commands[1..], cls);
      assert forall c :: c in commands <==> c == commands[0] || c in commands[1..];
    }
  }

  lemma SelectOne(c: Command, cls: CommandClass)
    ensures Select([c], cls) == if IsInstance(c.value, cls) then [c] else []
  {
    assert [c][1..] == [];
  }

  lemma {:induction false} SelectConcat(a: seq<Command>, b: seq<Command>, cls: CommandClass)
    ensures Select(a + b, cls) == Select(a, cls) + Select(b, cls)
  {
    if a == [] {
      assert a + b == b;
    } else {
      var head := if IsInstance(a[0].value, cls) then [a[0]] else [];
      assert (a + b)[0] == a[0];
      assert (a + b)[1..] == a[1..] + b;
      calc {
        Select(a + b, cls);
        head + Select(a[1..] + b, cls);
        { SelectConcat(a[1..], b, cls); }
        head + (Select(a[1..], cls) + Select(b, cls));
        (head + Select(a[1..], cls)) + Select(b, cls);
        Select(a, cls) + Select(b, cls);
      }
    }
  }

  /** `requireSingleCommand<T>()`: exactly one command of the class. */
  function RequireSingleCommand(commands: seq<Command>, cls: CommandClass): (r: Result<Command>)
    ensures r.Ok? <==> |Select(commands, cls)| == 1
    ensures r.Ok? ==> r.value == Select(commands, cls)[0] && r.value in commands && IsInstance(r.value.value, cls)
    ensures r.Err? ==> r.error == (if Select(commands, cls) == [] then MissingCommand(cls) else SeveralElements)
  {
    var selected := Select(commands, cls);
    if |selected| == 0 then Err(MissingCommand(cls))
    else if |selected| > 1 then Err(SeveralElements)
    else
      SelectMembers(commands, cls);
      assert selected[0] in selected;
      Ok(selected[0])
  }

  /** A pointer to an output of an earlier transaction. */
  datatype StateRef = StateRef(txhash: nat, index: nat)

  /** An input: the referenced state together with its reference. */
  datatype StateAndRef = StateAndRef(state: ContractState, ref: StateRef)

  type OwnableRef = r: StateAndRef | !r.state.Iou?
    witness StateAndRef(Cash(Amount(0, Issued(PartyAndReference(NullParty, []), Currency([]))), NullParty), StateRef(0, 0))

  type PaperRef = r: StateAndRef | r.state.Paper?
    witness StateAndRef(Paper(PaperState.State(PartyAndReference(NullParty, []), NullParty,
                                               Amount(0, Issued(PartyAndReference(NullParty, []), Currency([]))), 0)),
                        StateRef(0, 0))

  /** A transaction with its inputs resolved: what contracts verify. */
  datatype Tx = Tx(inputs: seq<StateAndRef>, outputs: seq<ContractState>, commands: seq<Command>, timeWindow: Option<TimeWindow>)

  const EmptyTx: Tx := Tx([], [], [], None)

  /** `tx.inputs.map { it.state.data }` */
  function InputStates(inputs: seq<StateAndRef>): (r: seq<ContractState>)
    ensures |r| == |inputs| && forall i :: 0 <= i < |inputs| ==> r[i] == inputs[i].state
  {
    if inputs == [] then [] else [inputs[0].state] + InputStates(inputs[1..])
  }

  lemma InputStatesConcat(a: seq<StateAndRef>, b: seq<StateAndRef>)
    ensures InputStates(a + b) == InputStates(a) + InputStates(b)
  {
    assert forall i :: 0 <= i < |a + b| ==> InputStates(a + b)[i] == (InputStates(a) + InputStates(b))[i];
  }

  /** Every state a transaction consumes or produces. */
  function AllStates(tx: Tx): seq<ContractState> {
    InputStates(tx.inputs) + tx.outputs
  }

  /** The keys of every participant of every state of the transaction. */
  function ParticipantKeys(tx: Tx): set<Key> {
    set s, p | s in AllStates(tx) && p in Participants(s) :: p.owningKey
  }

  /** The keys of a list of keys, as a set. */
  function KeySet(keys: seq<Key>): set<Key> {
    set k | k in keys
  }

  /** The keys of every command's signers. */
  function RequiredSigners(commands: seq<Command>): (r: set<Key>)
    ensures forall c, k :: c in commands && k in c.signers ==> k in r
    ensures forall k :: k in r ==> exists c :: c in commands && k in c.signers
  {
    if commands == [] then {} else KeySet(commands[0].signers) + RequiredSigners(commands[1..])
  }

  // ---------------------------------------------------------------------
  // sumCashBy

  /** The amounts of the cash states owned by `owner`, in order. */
  function CashAmountsOf(states: seq<ContractState>, owner: Party): seq<IssuedAmount> {
    if states == [] then []
    else (if states[0].Cash? && states[0].owner == owner then [states[0].amount] else [])
         + CashAmountsOf(states[1..], owner)
  }

  function QuantityOf(amounts: seq<IssuedAmount>): nat {
    if amounts == [] then 0 else QuantityOf(amounts[..|amounts| - 1]) + amounts[|amounts| - 1].quantity
  }

  /** `sumOrThrow()`: `reduce { left, right -> left + right }`. */
  function SumOrThrow(amounts: seq<IssuedAmount>): Result<IssuedAmount> {
    if amounts == [] then Err(EmptySum)
    else if |amounts| == 1 then Ok(amounts[0])
    else
      match SumOrThrow(amounts[..|amounts| - 1])
      case Err(e) => Err(e)
      case Ok(acc) =>
        var last := amounts[|amounts| - 1];
        if last.token != acc.token then Err(TokenMismatch) else Ok(Amount(acc.quantity + last.quantity, acc.token))
  }

  /** A sum succeeds exactly when there is something to sum and every token
      agrees; it then carries that token and the total quantity. */
  lemma {:induction false} SumOrThrowSpec(amounts: seq<IssuedAmount>)
    ensures SumOrThrow(amounts).Ok? <==>
              amounts != [] && forall i :: 0 <= i < |amounts| ==> amounts[i].token == amounts[0].token
    ensures SumOrThrow(amounts).Ok? ==>
              SumOrThrow(amounts).value == Amount(QuantityOf(amounts), amounts[0].token)
    ensures amounts == [] ==> SumOrThrow(amounts) == Err(EmptySum)
    ensures SumOrThrow(amounts).Err? && amounts != [] ==> SumOrThrow(amounts) == Err(TokenMismatch)
  {
    if |amounts| > 1 {
      var init := amounts[..|amounts| - 1];
      SumOrThrowSpec(init);
      assert init[0] == amounts[0];
      assert forall i :: 0 <= i < |init| ==> init[i] == amounts[i];
    }
  }

  /** `states.sumCashBy(owner)` */
  function SumCashBy(states: seq<ContractState>, owner: Party): Result<IssuedAmount> {
    SumOrThrow(CashAmountsOf(states, owner))
  }

  lemma {:induction false} CashAmountsOfConcat(a: seq<ContractState>, b: seq<ContractState>, owner: Party)
    ensures CashAmountsOf(a + b, owner) == CashAmountsOf(a, owner) + CashAmountsOf(b, owner)
  {
    if a != [] {
      assert (a + b)[0] == a[0];
      assert (a + b)[1..] == a[1..] + b;
      CashAmountsOfConcat(a[1..], b, owner);
      var head := if a[0].Cash? && a[0].owner == owner then [a[0].amount] else [];
      calc {
        CashAmountsOf(a + b, owner);
        head + CashAmountsOf(a[1..] + b, owner);
        head + (CashAmountsOf(a[1..], owner) + CashAmountsOf(b, owner));
        (head + CashAmountsOf(a[1..], owner)) + CashAmountsOf(b, owner);
      }
    } else {
      assert a + b == b;
    }
  }

  // ---------------------------------------------------------------------
  // Cash.generateSpend (library code; coin selection is left to the caller)

  /** What a cash spend adds to a transaction. */
  datatype CashSpend = CashSpend(inputs: seq<StateAndRef>, outputs: seq<ContractState>, command: Command)

  function CoinQuantity(coins: seq<StateAndRef>): nat {
    if coins == [] then 0
    else (if coins[0].state.Cash? then coins[0].state.amount.quantity else 0) + CoinQuantity(coins[1..])
  }

  function CoinOwnerKeys(coins: seq<StateAndRef>): seq<Key> {
    if coins == [] then []
    else (if coins[0].state.Cash? then [coins[0].state.owner.owningKey] else []) + CoinOwnerKeys(coins[1..])
  }

  /** The selected coins can pay `amount`: they are cash of one issued token
      of the amount's currency, and enough of it. */
  predicate CanPay(coins: seq<StateAndRef>, amount: CurrencyAmount) {
    coins != [] && coins[0].state.Cash? &&
    (forall i :: 0 <= i < |coins| ==> coins[i].state.Cash? && coins[i].state.amount.token == coins[0].state.amount.token) &&
    coins[0].state.amount.token.product == amount.token.currency &&
    CoinQuantity(coins) >= amount.quantity
  }

  /** `Cash.generateSpend`: consume the selected coins, pay `amount` (in the
      coins' issued token) to `payTo`, return any change to `changeOwner`,
      and add a cash move signed by the coins' owners. */
  function GenerateSpend(coins: seq<StateAndRef>, amount: CurrencyAmount, payTo: Party, changeOwner: Party): (r: Result<CashSpend>)
    ensures r.Ok? <==> CanPay(coins, amount)
    ensures r.Ok? ==> r.value.inputs == coins && r.value.command == Command(CashMove, CoinOwnerKeys(coins))
    ensures r.Ok? ==> |r.value.outputs| >= 1 && r.value.outputs[0] == Cash(Amount(amount.quantity, coins[0].state.amount.token), payTo)
    ensures r.Ok? ==> forall i :: 1 <= i < |r.value.outputs| ==> r.value.outputs[i].Cash? && r.value.outputs[i].owner == changeOwner
  {
    if !CanPay(coins, amount) then Err(InsufficientBalance)
    else
      var token := coins[0].state.amount.token;
      var total := CoinQuantity(coins);
      var payment := Cash(Amount(amount.quantity, token), payTo);
      var change := if total > amount.quantity then [Cash(Amount(total - amount.quantity, token), changeOwner)] else [];
      Ok(CashSpend(coins, [payment] + change, Command(CashMove, CoinOwnerKeys(coins))))
  }

  /** The cash a spend pays to `payTo` sums to the amount exactly, in the
      coins' token, when the change goes to someone else. */
  lemma SpendPaysExactly(coins: seq<StateAndRef>, amount: CurrencyAmount, payTo: Party, changeOwner: Party)
    requires CanPay(coins, amount) && changeOwner != payTo
    ensures SumCashBy(GenerateSpend(coins, amount, payTo, changeOwner).value.outputs, payTo)
            == Ok(Amount(amount.quantity, coins[0].state.amount.token))
  {
    var token := coins[0].state.amount.token;
    var outs := GenerateSpend(coins, amount, payTo, changeOwner).value.outputs;
    var change := outs[1..];
    assert outs == [Cash(Amount(amount.quantity, token), payTo)] + change;
    assert CashAmountsOf(change, payTo) == [] by {
      if change != [] {
        assert change[0].owner == changeOwner && change[1..] == [];
      }
    }
    CashAmountsOfConcat([Cash(Amount(amount.quantity, token), payTo)], change, payTo);
  }

  /** A transaction with a cash spend added. */
  function AddSpend(t: Tx, s: CashSpend): (r: Tx)
    ensures r.inputs == t.inputs + s.inputs && r.outputs == t.outputs + s.outputs
    ensures r.commands == t.commands + [s.command] && r.timeWindow == t.timeWindow
  {
    Tx(t.inputs + s.inputs, t.outputs + s.outputs, t.commands + [s.command], t.timeWindow)
  }

  // ---------------------------------------------------------------------
  // TransactionBuilder

  /** Corda's mutable transaction builder. */
  class TransactionBuilder {
    var inputs: seq<StateAndRef>
    var outputs: seq<ContractState>
    var commands: seq<Command>
    var timeWindow: Option<TimeWindow>

    /** The transaction built so far. */
    function Contents(): Tx
      reads this
    {
      Tx(inputs, outputs, commands, timeWindow)
    }

    constructor ()
      ensures Contents() == EmptyTx
    {
      inputs, outputs, commands, timeWindow := [], [], [], None;
    }

    method AddInputState(s: StateAndRef)
      modifies this
      ensures Contents() == old(Contents()).(inputs := old(inputs) + [s])
    {
      inputs := inputs + [s];
    }

    method AddOutputState(s: ContractState)
      modifies this
      ensures Contents() == old(Contents()).(outputs := old(outputs) + [s])
    {
      outputs := outputs + [s];
    }

    method AddCommand(c: Command)
      modifies this
      ensures Contents() == old(Contents()).(commands := old(commands) + [c])
    {
      commands := commands + [c];
    }

    method SetTimeWindow(w: TimeWindow)
      modifies this
      ensures Contents() == old(Contents()).(timeWindow := Some(w))
    {
      timeWindow := Some(w);
    }

    /** `withItems(stateAndContract, command)`: an output, then a command. */
    method WithItems(s: ContractState, c: Command)
      modifies this
      ensures Contents() == old(Contents()).(outputs := old(outputs) + [s], commands := old(commands) + [c])
    {
      AddOutputState(s);
      AddCommand(c);
    }

    /** `Cash.generateSpend(services, tx, amount, ourIdentity, payTo)`, with the
        coins coin selection picked passed in; returns the cash signing keys. */
    method GenerateSpendInto(coins: seq<StateAndRef>, amount: CurrencyAmount, payTo: Party, changeOwner: Party)
      returns (r: Result<seq<Key>>)
      modifies this
      ensures r.Ok? <==> CanPay(coins, amount)
      ensures r.Ok? ==> r.value == CoinOwnerKeys(coins) &&
                        Contents() == AddSpend(old(Contents()), GenerateSpend(coins, amount, payTo, changeOwner).value)
      ensures r.Err? ==> r.error == InsufficientBalance && Contents() == old(Contents())
    {
      var spend := GenerateSpend(coins, amount, payTo, changeOwner);
      if spend.Err? {
        return Err(InsufficientBalance);
      }
      inputs := inputs + spend.value.inputs;
      outputs := outputs + spend.value.outputs;
      commands := commands + [spend.value.command];
      r := Ok(CoinOwnerKeys(coins));
    }
  }
}
