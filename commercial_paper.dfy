/** The commercial paper contract: `verify` groups the paper states of a
    transaction by lineage and checks every group under the rules of the one
    commercial paper command; `generateIssuance`, `generateMove` and
    `generateRedeem` build transactions meant to pass those rules. */
module CommercialPaper {
  import opened Base
  import opened PaperState
  import opened Ledger

  const CP_PROGRAM_ID: string := "com.template.CommercialPaper"

  // ---------------------------------------------------------------------
  // Grouping: tx.groupStates(State::withoutOwner)

  /** `filterIsInstance<State>()` */
  function PaperStatesOf(states: seq<ContractState>): (r: seq<State>)
    ensures forall s :: s in r <==> Paper(s) in states
  {
    if states == [] then []
    else (if states[0].Paper? then [states[0].paper] else []) + PaperStatesOf(states[1..])
  }

  function PaperInputs(tx: Tx): seq<State> {
    PaperStatesOf(InputStates(tx.inputs))
  }

  function PaperOutputs(tx: Tx): seq<State> {
    PaperStatesOf(tx.outputs)
  }

  /** The states of one lineage, in order. */
  function WithKey(states: seq<State>, k: State): (r: seq<State>)
    ensures forall s :: s in r <==> s in states && WithoutOwner(s) == k
    ensures (forall s :: s in states ==> WithoutOwner(s) != k) ==> r == []
  {
    if states == [] then []
    else (if WithoutOwner(states[0]) == k then [states[0]] else []) + WithKey(states[1..], k)
  }

  /** The distinct grouping keys of `states`, in order of first appearance. */
  function KeysOf(states: seq<State>): seq<State> {
    if states == [] then []
    else
      var ks := KeysOf(states[..|states| - 1]);
      var k := WithoutOwner(states[|states| - 1]);
      if k in ks then ks else ks + [k]
  }

  /** The keys are distinct, and they are exactly the keys of the states. */
  lemma {:induction false} KeysOfSpec(states: seq<State>)
    ensures var ks := KeysOf(states);
            (forall i, j :: 0 <= i < j < |ks| ==> ks[i] != ks[j]) &&
            (forall s :: s in states ==> WithoutOwner(s) in ks) &&
            (forall k :: k in ks ==> exists s :: s in states && WithoutOwner(s) == k)
  {
    if states != [] {
      var init := states[..|states| - 1];
      var last := states[|states| - 1];
      assert states == init + [last];
      KeysOfSpec(init);
      var ks := KeysOf(init);
      if WithoutOwner(last) !in ks {
        assert KeysOf(states) == ks + [WithoutOwner(last)];
        forall k | k in ks + [WithoutOwner(last)] ensures exists s :: s in states && WithoutOwner(s) == k {
          if k in ks {
            var s :| s in init && WithoutOwner(s) == k;
            assert s in states;
          } else {
            assert last in states;
          }
        }
      } else {
        forall k | k in ks ensures exists s :: s in states && WithoutOwner(s) == k {
          var s :| s in init && WithoutOwner(s) == k;
          assert s in states;
        }
      }
    }
  }

  /** One lineage's inputs and outputs (`InOutGroup`). */
  datatype InOutGroup = InOutGroup(inputs: seq<State>, outputs: seq<State>, groupingKey: State)

  function GroupOf(ins: seq<State>, outs: seq<State>, k: State): InOutGroup {
    InOutGroup(WithKey(ins, k), WithKey(outs, k), k)
  }

  /** `groupStates`: a group per key of the inputs in order of first
      appearance, then a group per key found only among the outputs, in order
      of first appearance; that is the order of first appearance in the
      inputs followed by the outputs. */
  function GroupStates(ins: seq<State>, outs: seq<State>): seq<InOutGroup> {
    var ks := KeysOf(ins + outs);
    seq(|ks|, i requires 0 <= i < |ks| => GroupOf(ins, outs, ks[i]))
  }

  /** Where the lineage `k` first appears in `states`; `|states|` when it
      does not. */
  function FirstKeyIndex(states: seq<State>, k: State): (n: nat)
    ensures n <= |states|
    ensures n < |states| ==> WithoutOwner(states[n]) == k
    ensures forall m :: 0 <= m < n ==> WithoutOwner(states[m]) != k
  {
    if states == [] then 0
    else if WithoutOwner(states[0]) == k then 0
    else 1 + FirstKeyIndex(states[1..], k)
  }

  /** The first appearance of a lineage is the one index where it appears
      and nowhere before. */
  lemma FirstKeyIndexIs(states: seq<State>, k: State, n: nat)
    requires n < |states| && WithoutOwner(states[n]) == k
    requires forall m :: 0 <= m < n ==> WithoutOwner(states[m]) != k
    ensures FirstKeyIndex(states, k) == n
  {
  }

  /** Appending a state moves no lineage's first appearance among the
      earlier states. */
  lemma FirstKeyIndexAppend(init: seq<State>, last: State, k: State)
    requires FirstKeyIndex(init, k) < |init|
    ensures FirstKeyIndex(init + [last], k) == FirstKeyIndex(init, k)
  {
    var n := FirstKeyIndex(init, k);
    assert (init + [last])[n] == init[n];
    assert forall m :: 0 <= m < n ==> (init + [last])[m] == init[m];
    FirstKeyIndexIs(init + [last], k, n);
  }

  /** A lineage absent from the earlier states first appears in the state
      appended. */
  lemma FirstKeyIndexOfNew(init: seq<State>, last: State)
    requires forall s :: s in init ==> WithoutOwner(s) != WithoutOwner(last)
    ensures FirstKeyIndex(init + [last], WithoutOwner(last)) == |init|
  {
    var states := init + [last];
    forall m | 0 <= m < |init| ensures WithoutOwner(states[m]) != WithoutOwner(last) {
      assert states[m] == init[m] && init[m] in init;
    }
    FirstKeyIndexIs(states, WithoutOwner(last), |init|);
  }

  /** The keys come in order of their first appearance, and each does appear. */
  lemma {:induction false} KeysOfOrder(states: seq<State>)
    ensures forall i :: 0 <= i < |KeysOf(states)| ==> FirstKeyIndex(states, KeysOf(states)[i]) < |states|
    ensures forall i, j :: 0 <= i < j < |KeysOf(states)| ==>
              FirstKeyIndex(states, KeysOf(states)[i]) < FirstKeyIndex(states, KeysOf(states)[j])
  {
    if states != [] {
      var init := states[..|states| - 1];
      var last := states[|states| - 1];
      assert states == init + [last];
      KeysOfOrder(init);
      KeysOfSpec(init);
      var ks := KeysOf(init);
      forall i | 0 <= i < |ks| ensures FirstKeyIndex(states, ks[i]) == FirstKeyIndex(init, ks[i]) {
        FirstKeyIndexAppend(init, last, ks[i]);
      }
      if WithoutOwner(last) !in ks {
        assert KeysOf(states) == ks + [WithoutOwner(last)];
        FirstKeyIndexOfNew(init, last);
      }
    }
  }

  /** Every group holds at least one state. */
  lemma GroupStatesNonEmpty(ins: seq<State>, outs: seq<State>)
    ensures var gs := GroupStates(ins, outs);
            forall i :: 0 <= i < |gs| ==> gs[i].inputs != [] || gs[i].outputs != []
  {
    var gs := GroupStates(ins, outs);
    var ks := KeysOf(ins + outs);
    KeysOfSpec(ins + outs);
    forall i | 0 <= i < |gs| ensures gs[i].inputs != [] || gs[i].outputs != [] {
      assert ks[i] in ks;
      var s :| s in ins + outs && WithoutOwner(s) == ks[i];
      var g := GroupOf(ins, outs, ks[i]);
      assert gs[i] == g;
      if s in ins {
        assert s in g.inputs;
      } else {
        assert s in g.outputs;
      }
    }
  }

  /** Every state's lineage has a group. */
  lemma GroupStatesCover(ins: seq<State>, outs: seq<State>)
    ensures var gs := GroupStates(ins, outs);
            forall s :: s in ins + outs ==> exists i :: 0 <= i < |gs| && gs[i].groupingKey == WithoutOwner(s)
  {
    var gs := GroupStates(ins, outs);
    var ks := KeysOf(ins + outs);
    KeysOfSpec(ins + outs);
    forall s | s in ins + outs ensures exists i :: 0 <= i < |gs| && gs[i].groupingKey == WithoutOwner(s) {
      var i :| 0 <= i < |ks| && ks[i] == WithoutOwner(s);
      assert gs[i].groupingKey == WithoutOwner(s);
    }
  }

  /** What `groupStates` promises: one group per lineage of the states, no
      lineage twice, each group holding exactly that lineage's inputs and
      outputs (and at least one of them), in order of the lineages' first
      appearance among the inputs followed by the outputs. */
  lemma GroupStatesSpec(ins: seq<State>, outs: seq<State>)
    ensures var gs := GroupStates(ins, outs);
            (forall i, j :: 0 <= i < j < |gs| ==> gs[i].groupingKey != gs[j].groupingKey) &&
            (forall s :: s in ins + outs ==> exists i :: 0 <= i < |gs| && gs[i].groupingKey == WithoutOwner(s)) &&
            (forall i, s :: 0 <= i < |gs| ==>
               (s in gs[i].inputs <==> s in ins && WithoutOwner(s) == gs[i].groupingKey) &&
               (s in gs[i].outputs <==> s in outs && WithoutOwner(s) == gs[i].groupingKey)) &&
            (forall i :: 0 <= i < |gs| ==> gs[i].inputs != [] || gs[i].outputs != []) &&
            (forall i, j :: 0 <= i < j < |gs| ==>
               FirstKeyIndex(ins + outs, gs[i].groupingKey) < FirstKeyIndex(ins + outs, gs[j].groupingKey))
  {
    KeysOfSpec(ins + outs);
    KeysOfOrder(ins + outs);
    GroupStatesCover(ins, outs);
    GroupStatesNonEmpty(ins, outs);
  }

  // ---------------------------------------------------------------------
  // The rules of each command

  function CheckIssue(g: InOutGroup, timeWindow: Option<TimeWindow>, signers: seq<Key>): Outcome {
    match Single(g.outputs)
    case Err(e) => Fail(e)
    case Ok(output) =>
      match UntilTime(timeWindow)
      case None => Fail(Illegal(IssuanceTimestamped))
      case Some(time) =>
        if output.issuance.party.owningKey !in signers then Fail(Requirement(IssuedBySigner))
        else if !(output.faceValue.quantity > 0) then Fail(Requirement(ValuesPositive))
        else if !(time < output.maturityDate) then Fail(Requirement(MaturityNotInPast))
        else if g.inputs != [] then Fail(Requirement(NoReissue))
        else Pass
  }

  /** An issuance's rules are checked in order, and the first broken one
      is reported: one output, a time window with an end, an issuer among the
      signers, a positive face value, a maturity after the window, no input. */
  lemma CheckIssueReportsFirstBrokenRule(g: InOutGroup, timeWindow: Option<TimeWindow>, signers: seq<Key>)
    ensures |g.outputs| != 1 ==> CheckIssue(g, timeWindow, signers) == Fail(Single(g.outputs).error)
    ensures |g.outputs| == 1 && UntilTime(timeWindow).None? ==>
              CheckIssue(g, timeWindow, signers) == Fail(Illegal(IssuanceTimestamped))
    ensures |g.outputs| == 1 && UntilTime(timeWindow).Some? && g.outputs[0].issuance.party.owningKey !in signers ==>
              CheckIssue(g, timeWindow, signers) == Fail(Requirement(IssuedBySigner))
    ensures |g.outputs| == 1 && UntilTime(timeWindow).Some? && g.outputs[0].issuance.party.owningKey in signers &&
            g.outputs[0].faceValue.quantity == 0 ==>
              CheckIssue(g, timeWindow, signers) == Fail(Requirement(ValuesPositive))
    ensures |g.outputs| == 1 && UntilTime(timeWindow).Some? && g.outputs[0].issuance.party.owningKey in signers &&
            g.outputs[0].faceValue.quantity > 0 && UntilTime(timeWindow).value >= g.outputs[0].maturityDate ==>
              CheckIssue(g, timeWindow, signers) == Fail(Requirement(MaturityNotInPast))
    ensures |g.outputs| == 1 && UntilTime(timeWindow).Some? && g.outputs[0].issuance.party.owningKey in signers &&
            g.outputs[0].faceValue.quantity > 0 && UntilTime(timeWindow).value < g.outputs[0].maturityDate &&
            g.inputs != [] ==>
              CheckIssue(g, timeWindow, signers) == Fail(Requirement(NoReissue))
  {
  }

  function CheckMove(g: InOutGroup, signers: seq<Key>): Outcome {
    match Single(g.inputs)
    case Err(e) => Fail(e)
    case Ok(input) =>
      if input.owner.owningKey !in signers then Fail(Requirement(SignedByOwner))
      else if |g.outputs| != 1 then Fail(Requirement(Propagated))
      else Pass
  }

  /** A move's rules are checked in order: one input, signed by its owner,
      one output. */
  lemma CheckMoveReportsFirstBrokenRule(g: InOutGroup, signers: seq<Key>)
    ensures |g.inputs| != 1 ==> CheckMove(g, signers) == Fail(Single(g.inputs).error)
    ensures |g.inputs| == 1 && g.inputs[0].owner.owningKey !in signers ==>
              CheckMove(g, signers) == Fail(Requirement(SignedByOwner))
    ensures |g.inputs| == 1 && g.inputs[0].owner.owningKey in signers && |g.outputs| != 1 ==>
              CheckMove(g, signers) == Fail(Requirement(Propagated))
  {
  }

  function CheckRedeem(g: InOutGroup, txOutputs: seq<ContractState>, timeWindow: Option<TimeWindow>, signers: seq<Key>): Outcome {
    match Single(g.inputs)
    case Err(e) => Fail(e)
    case Ok(input) =>
      match SumCashBy(txOutputs, input.owner)
      case Err(e) => Fail(e)
      case Ok(received) =>
        match UntilTime(timeWindow)
        case None => Fail(Illegal(RedemptionTimestamped))
        case Some(time) =>
          if !(time >= input.maturityDate) then Fail(Requirement(Matured))
          else if received != input.faceValue then Fail(Requirement(ReceivedFaceValue))
          else if g.outputs != [] then Fail(Requirement(Destroyed))
          else if input.owner.owningKey !in signers then Fail(Requirement(SignedByOwner))
          else Pass
  }

  /** A redemption's rules are checked in order: one input, the cash paid to
      its owner summed, a time window with an end, the paper matured, the
      face value received, no output, signed by the owner. */
  lemma CheckRedeemReportsFirstBrokenRule(g: InOutGroup, txOutputs: seq<ContractState>, timeWindow: Option<TimeWindow>,
                                          signers: seq<Key>)
    ensures |g.inputs| != 1 ==> CheckRedeem(g, txOutputs, timeWindow, signers) == Fail(Single(g.inputs).error)
    ensures |g.inputs| == 1 && SumCashBy(txOutputs, g.inputs[0].owner).Err? ==>
              CheckRedeem(g, txOutputs, timeWindow, signers) == Fail(SumCashBy(txOutputs, g.inputs[0].owner).error)
    ensures |g.inputs| == 1 && SumCashBy(txOutputs, g.inputs[0].owner).Ok? && UntilTime(timeWindow).None? ==>
              CheckRedeem(g, txOutputs, timeWindow, signers) == Fail(Illegal(RedemptionTimestamped))
    ensures |g.inputs| == 1 && SumCashBy(txOutputs, g.inputs[0].owner).Ok? && UntilTime(timeWindow).Some? &&
            UntilTime(timeWindow).value < g.inputs[0].maturityDate ==>
              CheckRedeem(g, txOutputs, timeWindow, signers) == Fail(Requirement(Matured))
    ensures |g.inputs| == 1 && SumCashBy(txOutputs, g.inputs[0].owner).Ok? && UntilTime(timeWindow).Some? &&
            UntilTime(timeWindow).value >= g.inputs[0].maturityDate &&
            SumCashBy(txOutputs, g.inputs[0].owner).value != g.inputs[0].faceValue ==>
              CheckRedeem(g, txOutputs, timeWindow, signers) == Fail(Requirement(ReceivedFaceValue))
    ensures |g.inputs| == 1 && SumCashBy(txOutputs, g.inputs[0].owner).Ok? && UntilTime(timeWindow).Some? &&
            UntilTime(timeWindow).value >= g.inputs[0].maturityDate &&
            SumCashBy(txOutputs, g.inputs[0].owner).value == g.inputs[0].faceValue && g.outputs != [] ==>
              CheckRedeem(g, txOutputs, timeWindow, signers) == Fail(Requirement(Destroyed))
    ensures |g.inputs| == 1 && SumCashBy(txOutputs, g.inputs[0].owner).Ok? && UntilTime(timeWindow).Some? &&
            UntilTime(timeWindow).value >= g.inputs[0].maturityDate &&
            SumCashBy(txOutputs, g.inputs[0].owner).value == g.inputs[0].faceValue && g.outputs == [] &&
            g.inputs[0].owner.owningKey !in signers ==>
              CheckRedeem(g, txOutputs, timeWindow, signers) == Fail(Requirement(SignedByOwner))
  {
  }

  /** One iteration of the loop over the groups: dispatch on the command. */
  function CheckGroup(kind: Commands, signers: seq<Key>, g: InOutGroup, tx: Tx): Outcome {
    match kind
    case Issue => CheckIssue(g, tx.timeWindow, signers)
    case Move => CheckMove(g, signers)
    case Redeem => CheckRedeem(g, tx.outputs, tx.timeWindow, signers)
    case Other => Fail(Illegal(Unrecognised))
  }

  /** The loop over the groups: the first failing group ends verification. */
  function CheckGroups(kind: Commands, signers: seq<Key>, gs: seq<InOutGroup>, tx: Tx): Outcome {
    if gs == [] then Pass
    else
      match CheckGroup(kind, signers, gs[0], tx)
      case Fail(e) => Fail(e)
      case Pass => CheckGroups(kind, signers, gs[1..], tx)
  }

  /** `CommercialPaper.verify` */
  function Verify(tx: Tx): Outcome {
    var groups := GroupStates(PaperInputs(tx), PaperOutputs(tx));
    match RequireSingleCommand(tx.commands, PaperCommands)
    case Err(e) => Fail(e)
    case Ok(cmd) => CheckGroups(cmd.value.cp, cmd.signers, groups, tx)
  }

  // ---------------------------------------------------------------------
  // What verification means

  /** The loop passes exactly when every group passes; when it fails, it
      reports the failure of the first failing group. */
  lemma {:induction false} CheckGroupsSpec(kind: Commands, signers: seq<Key>, gs: seq<InOutGroup>, tx: Tx)
    ensures CheckGroups(kind, signers, gs, tx) == Pass <==>
              forall i :: 0 <= i < |gs| ==> CheckGroup(kind, signers, gs[i], tx) == Pass
    ensures CheckGroups(kind, signers, gs, tx).Fail? ==>
              exists i :: 0 <= i < |gs| && CheckGroup(kind, signers, gs[i], tx) == CheckGroups(kind, signers, gs, tx) &&
                          forall j :: 0 <= j < i ==> CheckGroup(kind, signers, gs[j], tx) == Pass
  {
    if gs != [] {
      CheckGroupsSpec(kind, signers, gs[1..], tx);
      if CheckGroup(kind, signers, gs[0], tx).Pass? && CheckGroups(kind, signers, gs, tx).Fail? {
        var i :| 0 <= i < |gs[1..]| && CheckGroup(kind, signers, gs[1..][i], tx) == CheckGroups(kind, signers, gs[1..], tx) &&
                 forall j :: 0 <= j < i ==> CheckGroup(kind, signers, gs[1..][j], tx) == Pass;
        assert CheckGroup(kind, signers, gs[i + 1], tx) == CheckGroups(kind, signers, gs, tx);
        assert forall j :: 0 <= j < i + 1 ==> CheckGroup(kind, signers, gs[j], tx) == Pass by {
          forall j | 0 <= j < i + 1 ensures CheckGroup(kind, signers, gs[j], tx) == Pass {
            if j > 0 { assert gs[j] == gs[1..][j - 1]; }
          }
        }
      }
      if CheckGroup(kind, signers, gs[0], tx).Pass? {
        assert forall i :: 0 <= i < |gs[1..]| ==> gs[1..][i] == gs[i + 1];
      }
    }
  }

  /** The single commercial paper command of a transaction, when there is one. */
  function PaperCommand(tx: Tx): (r: Option<Command>)
    ensures r.Some? <==> |Select(tx.commands, PaperCommands)| == 1
    ensures r.Some? ==> r.value.value.CP? && r.value in tx.commands
  {
    match RequireSingleCommand(tx.commands, PaperCommands)
    case Err(_) => None
    case Ok(cmd) => Some(cmd)
  }

  /** The lineage of `k` passes the rules of the transaction's command. */
  predicate LineageOk(tx: Tx, cmd: Command, k: State)
    requires cmd.value.CP?
  {
    CheckGroup(cmd.value.cp, cmd.signers, GroupOf(PaperInputs(tx), PaperOutputs(tx), k), tx) == Pass
  }

  /** Verification passes exactly when there is one commercial paper command
      and the lineage of every paper state, considered on its own, passes
      that command's rules: the result does not depend on the order of the
      groups, and no lineage can hide behind another. */
  lemma VerifyPassIff(tx: Tx)
    ensures Verify(tx) == Pass <==>
              PaperCommand(tx).Some? &&
              forall s :: s in PaperInputs(tx) + PaperOutputs(tx) ==> LineageOk(tx, PaperCommand(tx).value, WithoutOwner(s))
  {
    var ins, outs := PaperInputs(tx), PaperOutputs(tx);
    var gs := GroupStates(ins, outs);
    var ks := KeysOf(ins + outs);
    KeysOfSpec(ins + outs);
    if PaperCommand(tx).Some? {
      var cmd := PaperCommand(tx).value;
      CheckGroupsSpec(cmd.value.cp, cmd.signers, gs, tx);
      if Verify(tx) == Pass {
        forall s | s in ins + outs ensures LineageOk(tx, cmd, WithoutOwner(s)) {
          var j :| 0 <= j < |ks| && ks[j] == WithoutOwner(s);
          assert gs[j] == GroupOf(ins, outs, WithoutOwner(s));
        }
      }
      if forall s :: s in ins + outs ==> LineageOk(tx, cmd, WithoutOwner(s)) {
        forall i | 0 <= i < |gs| ensures CheckGroup(cmd.value.cp, cmd.signers, gs[i], tx) == Pass {
          assert ks[i] in ks;
          var s :| s in ins + outs && WithoutOwner(s) == ks[i];
          assert LineageOk(tx, cmd, WithoutOwner(s));
        }
      }
    }
  }

  /** A failed verification reports either the command failure or the
      failure of the first failing lineage, in group order. */
  lemma VerifyReportsFirstFailure(tx: Tx)
    requires Verify(tx).Fail?
    ensures PaperCommand(tx).None? ==> Verify(tx) == Fail(RequireSingleCommand(tx.commands, PaperCommands).error)
    ensures PaperCommand(tx).Some? ==>
              var cmd := PaperCommand(tx).value;
              var gs := GroupStates(PaperInputs(tx), PaperOutputs(tx));
              exists i :: 0 <= i < |gs| && CheckGroup(cmd.value.cp, cmd.signers, gs[i], tx) == Verify(tx) &&
                          forall j :: 0 <= j < i ==> CheckGroup(cmd.value.cp, cmd.signers, gs[j], tx) == Pass
  {
    if PaperCommand(tx).Some? {
      var cmd := PaperCommand(tx).value;
      CheckGroupsSpec(cmd.value.cp, cmd.signers, GroupStates(PaperInputs(tx), PaperOutputs(tx)), tx);
    }
  }

  /** A lineage has one state in `states`, and it is `s`. */
  lemma SingleOfLineage(states: seq<State>, s: State)
    requires s in states && |WithKey(states, WithoutOwner(s))| == 1
    ensures WithKey(states, WithoutOwner(s)) == [s]
  {
    assert s in WithKey(states, WithoutOwner(s));
  }

  /** Under `Move`, verification passes exactly when every lineage has one
      input, signed for by its owner, and one output. */
  lemma MovePassIff(tx: Tx)
    requires PaperCommand(tx).Some? && PaperCommand(tx).value.value == CP(Move)
    ensures var ins, outs, signers := PaperInputs(tx), PaperOutputs(tx), PaperCommand(tx).value.signers;
            Verify(tx) == Pass <==>
              forall s :: s in ins + outs ==>
                |WithKey(ins, WithoutOwner(s))| == 1 && |WithKey(outs, WithoutOwner(s))| == 1 &&
                WithKey(ins, WithoutOwner(s))[0].owner.owningKey in signers
  {
    var ins, outs, signers := PaperInputs(tx), PaperOutputs(tx), PaperCommand(tx).value.signers;
    VerifyPassIff(tx);
    forall s | s in ins + outs
      ensures LineageOk(tx, PaperCommand(tx).value, WithoutOwner(s)) <==>
                |WithKey(ins, WithoutOwner(s))| == 1 && |WithKey(outs, WithoutOwner(s))| == 1 &&
                WithKey(ins, WithoutOwner(s))[0].owner.owningKey in signers
    {
      CheckMovePassIff(GroupOf(ins, outs, WithoutOwner(s)), signers);
    }
  }

  /** A group passes the move rules exactly when it has one input, signed
      for by its owner, and one output. */
  lemma CheckMovePassIff(g: InOutGroup, signers: seq<Key>)
    ensures CheckMove(g, signers) == Pass <==> |g.inputs| == 1 && |g.outputs| == 1 && g.inputs[0].owner.owningKey in signers
  {
  }

  /** A moved paper whose lineage no output continues is rejected: changing
      any field but the owner during a move cannot verify. */
  lemma MoveRejectsChangedLineage(tx: Tx, a: State)
    requires PaperCommand(tx).Some? && PaperCommand(tx).value.value == CP(Move)
    requires a in PaperInputs(tx)
    requires forall b :: b in PaperOutputs(tx) ==> !SameLineage(a, b)
    ensures Verify(tx).Fail?
  {
    var cmd := PaperCommand(tx).value;
    var continued := WithKey(PaperOutputs(tx), WithoutOwner(a));
    assert continued == [] by {
      forall b | b in PaperOutputs(tx) ensures WithoutOwner(b) != WithoutOwner(a) {
        WithoutOwnerIsLineage(a, b);
      }
    }
    assert a in WithKey(PaperInputs(tx), WithoutOwner(a));
    assert !LineageOk(tx, cmd, WithoutOwner(a));
    assert a in PaperInputs(tx) + PaperOutputs(tx);
    VerifyPassIff(tx);
  }

  /** The single paper input of a move whose only paper output belongs to
      another lineage fails "the state is propagated" once its owner signed. */
  lemma MoveOfAlteredPaperIsNotPropagated(tx: Tx, a: State, b: State)
    requires PaperCommand(tx).Some? && PaperCommand(tx).value.value == CP(Move)
    requires PaperInputs(tx) == [a] && PaperOutputs(tx) == [b] && !SameLineage(a, b)
    requires a.owner.owningKey in PaperCommand(tx).value.signers
    ensures Verify(tx) == Fail(Requirement(Propagated))
  {
    WithoutOwnerIsLineage(a, b);
    GroupsOfPair(a, b);
    var cmd := PaperCommand(tx).value;
    var gs := GroupStates([a], [b]);
    assert CheckMove(gs[0], cmd.signers) == Fail(Requirement(Propagated));
  }

  /** The issuance rules for one paper output. */
  predicate IssueRules(tx: Tx, signers: seq<Key>, o: State) {
    UntilTime(tx.timeWindow).Some? &&
    o.issuance.party.owningKey in signers && o.faceValue.quantity > 0 &&
    UntilTime(tx.timeWindow).value < o.maturityDate
  }

  /** A group with an input never passes the issue rules. */
  lemma CheckIssueWithInputs(g: InOutGroup, timeWindow: Option<TimeWindow>, signers: seq<Key>)
    requires g.inputs != []
    ensures CheckIssue(g, timeWindow, signers).Fail?
  {
  }

  lemma IssueLineageOfInput(tx: Tx, cmd: Command, i: State)
    requires cmd.value == CP(Issue) && i in PaperInputs(tx)
    ensures !LineageOk(tx, cmd, WithoutOwner(i))
  {
    var g := GroupOf(PaperInputs(tx), PaperOutputs(tx), WithoutOwner(i));
    assert i in g.inputs;
    CheckIssueWithInputs(g, tx.timeWindow, cmd.signers);
  }

  lemma IssueLineageOfOutput(tx: Tx, cmd: Command, o: State)
    requires cmd.value == CP(Issue) && o in PaperOutputs(tx) && PaperInputs(tx) == []
    ensures LineageOk(tx, cmd, WithoutOwner(o)) <==>
              |WithKey(PaperOutputs(tx), WithoutOwner(o))| == 1 && IssueRules(tx, cmd.signers, o)
  {
    if |WithKey(PaperOutputs(tx), WithoutOwner(o))| == 1 {
      SingleOfLineage(PaperOutputs(tx), o);
    }
  }

  /** Under `Issue`, verification passes exactly when no paper is consumed and
      every issued paper is alone in its lineage, is issued by a signer, has
      a positive face value and matures after the time window closes. */
  lemma IssuePassIff(tx: Tx)
    requires PaperCommand(tx).Some? && PaperCommand(tx).value.value == CP(Issue)
    ensures Verify(tx) == Pass <==>
              PaperInputs(tx) == [] &&
              forall o :: o in PaperOutputs(tx) ==>
                |WithKey(PaperOutputs(tx), WithoutOwner(o))| == 1 && IssueRules(tx, PaperCommand(tx).value.signers, o)
  {
    var ins, outs := PaperInputs(tx), PaperOutputs(tx);
    var cmd := PaperCommand(tx).value;
    VerifyPassIff(tx);
    if ins != [] {
      IssueLineageOfInput(tx, cmd, ins[0]);
      assert ins[0] in ins + outs;
    } else {
      assert ins + outs == outs;
      forall o | o in outs
        ensures LineageOk(tx, cmd, WithoutOwner(o)) <==> |WithKey(outs, WithoutOwner(o))| == 1 && IssueRules(tx, cmd.signers, o)
      {
        IssueLineageOfOutput(tx, cmd, o);
      }
    }
  }

  /** The redemption rules for one paper input. */
  predicate RedeemRules(tx: Tx, signers: seq<Key>, i: State) {
    SumCashBy(tx.outputs, i.owner) == Ok(i.faceValue) &&
    UntilTime(tx.timeWindow).Some? && UntilTime(tx.timeWindow).value >= i.maturityDate &&
    i.owner.owningKey in signers
  }

  lemma RedeemLineageOfOutput(tx: Tx, cmd: Command, o: State)
    requires cmd.value == CP(Redeem) && o in PaperOutputs(tx)
    ensures !LineageOk(tx, cmd, WithoutOwner(o))
  {
    var g := GroupOf(PaperInputs(tx), PaperOutputs(tx), WithoutOwner(o));
    assert o in g.outputs;
    assert g.outputs != [];
    RedeemRejectsOutputs(g, tx.outputs, tx.timeWindow, cmd.signers);
  }

  lemma RedeemRejectsOutputs(g: InOutGroup, txOutputs: seq<ContractState>, timeWindow: Option<TimeWindow>, signers: seq<Key>)
    requires g.outputs != []
    ensures CheckRedeem(g, txOutputs, timeWindow, signers).Fail?
  {
  }

  /** A group with no outputs passes the redemption rules exactly when it
      has one input and that input meets them. */
  lemma CheckRedeemPassIff(g: InOutGroup, tx: Tx, signers: seq<Key>)
    requires g.outputs == []
    ensures CheckRedeem(g, tx.outputs, tx.timeWindow, signers) == Pass <==>
              |g.inputs| == 1 && RedeemRules(tx, signers, g.inputs[0])
  {
  }

  lemma RedeemLineageOfInput(tx: Tx, cmd: Command, i: State)
    requires cmd.value == CP(Redeem) && i in PaperInputs(tx) && PaperOutputs(tx) == []
    ensures LineageOk(tx, cmd, WithoutOwner(i)) <==>
              |WithKey(PaperInputs(tx), WithoutOwner(i))| == 1 && RedeemRules(tx, cmd.signers, i)
  {
    var g := GroupOf(PaperInputs(tx), PaperOutputs(tx), WithoutOwner(i));
    assert g.outputs == [];
    CheckRedeemPassIff(g, tx, cmd.signers);
    if |g.inputs| == 1 {
      SingleOfLineage(PaperInputs(tx), i);
    }
  }

  /** Under `Redeem`, verification passes exactly when no paper is produced
      and every redeemed paper is alone in its lineage, has matured by the
      end of the time window, is paid its face value in cash, issuer
      included, to its owner, and is signed for by that owner. */
  lemma RedeemPassIff(tx: Tx)
    requires PaperCommand(tx).Some? && PaperCommand(tx).value.value == CP(Redeem)
    ensures Verify(tx) == Pass <==>
              PaperOutputs(tx) == [] &&
              forall i :: i in PaperInputs(tx) ==>
                |WithKey(PaperInputs(tx), WithoutOwner(i))| == 1 && RedeemRules(tx, PaperCommand(tx).value.signers, i)
  {
    var ins, outs := PaperInputs(tx), PaperOutputs(tx);
    var cmd := PaperCommand(tx).value;
    VerifyPassIff(tx);
    if outs != [] {
      RedeemLineageOfOutput(tx, cmd, outs[0]);
      assert outs[0] in ins + outs;
    } else {
      assert ins + outs == ins;
      forall i | i in ins
        ensures LineageOk(tx, cmd, WithoutOwner(i)) <==> |WithKey(ins, WithoutOwner(i))| == 1 && RedeemRules(tx, cmd.signers, i)
      {
        RedeemLineageOfInput(tx, cmd, i);
      }
    }
  }

  /** A command that is none of the three fails any transaction with paper
      in it, and passes one without. */
  lemma UnrecognisedCommand(tx: Tx)
    requires PaperCommand(tx).Some? && PaperCommand(tx).value.value == CP(Other)
    ensures PaperInputs(tx) + PaperOutputs(tx) != [] ==> Verify(tx) == Fail(Illegal(Unrecognised))
    ensures PaperInputs(tx) + PaperOutputs(tx) == [] ==> Verify(tx) == Pass
  {
    VerifyUnfold(tx);
    KeysOfEmptyIff(PaperInputs(tx) + PaperOutputs(tx));
  }

  /** There are no keys exactly when there are no states. */
  lemma KeysOfEmptyIff(states: seq<State>)
    ensures KeysOf(states) == [] <==> states == []
  {
  }

  // ---------------------------------------------------------------------
  // Groups of the small transactions the generators and tests build

  lemma WithKeySingleton(s: State, k: State)
    ensures WithKey([s], k) == if WithoutOwner(s) == k then [s] else []
  {
    assert [s][1..] == [];
  }

  lemma KeysOfOne(a: State)
    ensures KeysOf([a]) == [WithoutOwner(a)]
  {
    assert [a][..0] == [];
  }

  lemma KeysOfTwo(a: State, b: State)
    ensures KeysOf([a, b]) == if WithoutOwner(a) == WithoutOwner(b) then [WithoutOwner(a)] else [WithoutOwner(a), WithoutOwner(b)]
  {
    assert [a, b][..1] == [a];
    KeysOfOne(a);
  }

  lemma GroupsOfPair(a: State, b: State)
    ensures WithoutOwner(a) != WithoutOwner(b) ==>
              GroupStates([a], [b]) == [InOutGroup([a], [], WithoutOwner(a)), InOutGroup([], [b], WithoutOwner(b))]
    ensures WithoutOwner(a) == WithoutOwner(b) ==> GroupStates([a], [b]) == [InOutGroup([a], [b], WithoutOwner(a))]
  {
    assert [a] + [b] == [a, b];
    KeysOfTwo(a, b);
    WithKeySingleton(a, WithoutOwner(a));
    WithKeySingleton(b, WithoutOwner(a));
    WithKeySingleton(a, WithoutOwner(b));
    WithKeySingleton(b, WithoutOwner(b));
  }

  lemma GroupsOfOneInput(a: State)
    ensures GroupStates([a], []) == [InOutGroup([a], [], WithoutOwner(a))]
  {
    KeysOfOne(a);
    assert [a] + [] == [a];
    WithKeySingleton(a, WithoutOwner(a));
  }

  lemma GroupsOfOneOutput(a: State)
    ensures GroupStates([], [a]) == [InOutGroup([], [a], WithoutOwner(a))]
  {
    KeysOfOne(a);
    assert [] + [a] == [a];
    WithKeySingleton(a, WithoutOwner(a));
  }

  /** With one commercial paper command, verification is the loop over the groups. */
  lemma VerifyUnfold(tx: Tx)
    requires PaperCommand(tx).Some?
    ensures var cmd := PaperCommand(tx).value;
            Verify(tx) == CheckGroups(cmd.value.cp, cmd.signers, GroupStates(PaperInputs(tx), PaperOutputs(tx)), tx)
  {
  }

  lemma CheckGroupsOne(kind: Commands, signers: seq<Key>, g: InOutGroup, tx: Tx)
    ensures CheckGroups(kind, signers, [g], tx) == CheckGroup(kind, signers, g, tx)
  {
    assert [g][1..] == [];
  }

  lemma PaperStatesOfOne(s: ContractState)
    ensures PaperStatesOf([s]) == if s.Paper? then [s.paper] else []
  {
    assert [s][1..] == [];
  }

  lemma {:induction false} PaperStatesOfConcat(a: seq<ContractState>, b: seq<ContractState>)
    ensures PaperStatesOf(a + b) == PaperStatesOf(a) + PaperStatesOf(b)
  {
    if a == [] {
      assert a + b == b;
    } else {
      var head := if a[0].Paper? then [a[0].paper] else [];
      assert (a + b)[0] == a[0];
      assert (a + b)[1..] == a[1..] + b;
      calc {
        PaperStatesOf(a + b);
        head + PaperStatesOf(a[1..] + b);
        { PaperStatesOfConcat(a[1..], b); }
        head + (PaperStatesOf(a[1..]) + PaperStatesOf(b));
        (head + PaperStatesOf(a[1..])) + PaperStatesOf(b);
        PaperStatesOf(a) + PaperStatesOf(b);
      }
    }
  }

  // ---------------------------------------------------------------------
  // Generators

  /** The transaction `generateIssuance` builds: the new paper owned by its
      issuer, and an issue command signed by the issuer. */
  function IssuanceTx(issuance: PartyAndReference, faceValue: IssuedAmount, maturityDate: int): (t: Tx)
    ensures t.inputs == [] && t.timeWindow == None
    ensures t.outputs == [Paper(State(issuance, issuance.party, faceValue, maturityDate))]
    ensures t.commands == [Command(CP(Issue), [issuance.party.owningKey])]
  {
    Tx([], [Paper(State(issuance, issuance.party, faceValue, maturityDate))], [Command(CP(Issue), [issuance.party.owningKey])], None)
  }

  /** `generateIssuance`; the notary it is given is not part of the model. */
  method GenerateIssuance(issuance: PartyAndReference, faceValue: IssuedAmount, maturityDate: int)
    returns (b: TransactionBuilder)
    ensures fresh(b) && b.Contents() == IssuanceTx(issuance, faceValue, maturityDate)
  {
    b := new TransactionBuilder();
    var state := State(issuance, issuance.party, faceValue, maturityDate);
    b.WithItems(Paper(state), Command(CP(Issue), [issuance.party.owningKey]));
  }

  /** A generated issuance verifies once it is given a time window, exactly
      when the face value is positive and the paper matures after the window
      closes; without a time window it fails as untimestamped. */
  lemma IssuanceVerifiesIff(issuance: PartyAndReference, faceValue: IssuedAmount, maturityDate: int, w: Option<TimeWindow>)
    ensures var tx := IssuanceTx(issuance, faceValue, maturityDate).(timeWindow := w);
            (Verify(tx) == Pass <==> UntilTime(w).Some? && faceValue.quantity > 0 && UntilTime(w).value < maturityDate) &&
            (UntilTime(w).None? ==> Verify(tx) == Fail(Illegal(IssuanceTimestamped)))
  {
    var tx := IssuanceTx(issuance, faceValue, maturityDate).(timeWindow := w);
    var o := State(issuance, issuance.party, faceValue, maturityDate);
    var issue := Command(CP(Issue), [issuance.party.owningKey]);
    assert PaperInputs(tx) == [];
    PaperStatesOfOne(Paper(o));
    SelectOne(issue, PaperCommands);
    assert PaperCommand(tx) == Some(issue);
    VerifyUnfold(tx);
    GroupsOfOneOutput(o);
    CheckGroupsOne(Issue, issue.signers, InOutGroup([], [o], WithoutOwner(o)), tx);
  }

  /** What `generateMove` adds: the paper as an input, the paper under its new
      owner as an output, and a move signed by the current owner. */
  function MoveTx(t: Tx, paper: PaperRef, newOwner: Party): (r: Tx)
    ensures r.inputs == t.inputs + [paper] && r.timeWindow == t.timeWindow
    ensures r.outputs == t.outputs + [Paper(paper.state.paper.(owner := newOwner))]
    ensures r.commands == t.commands + [Command(CP(Move), [paper.state.paper.owner.owningKey])]
  {
    t.(inputs := t.inputs + [paper],
       outputs := t.outputs + [Paper(PaperState.WithNewOwner(paper.state.paper, newOwner).ownableState)],
       commands := t.commands + [Command(CP(Move), [paper.state.paper.owner.owningKey])])
  }

  /** `generateMove` */
  method GenerateMove(tx: TransactionBuilder, paper: PaperRef, newOwner: Party)
    modifies tx
    ensures tx.Contents() == MoveTx(old(tx.Contents()), paper, newOwner)
  {
    tx.AddInputState(paper);
    var state := PaperState.WithNewOwner(paper.state.paper, newOwner).ownableState;
    tx.WithItems(Paper(state), Command(CP(Move), [paper.state.paper.owner.owningKey]));
  }

  /** A move generated into a transaction with no other paper and no other
      commercial paper command verifies. */
  lemma GeneratedMoveVerifies(t: Tx, paper: PaperRef, newOwner: Party)
    requires PaperInputs(t) == [] && PaperOutputs(t) == [] && Select(t.commands, PaperCommands) == []
    ensures Verify(MoveTx(t, paper, newOwner)) == Pass
  {
    var tx := MoveTx(t, paper, newOwner);
    var a := paper.state.paper;
    var b := a.(owner := newOwner);
    var move := Command(CP(Move), [a.owner.owningKey]);
    MoveTxPapers(t, paper, newOwner);
    VerifyUnfold(tx);
    GroupsOfPair(a, b);
    CheckGroupsOne(Move, move.signers, InOutGroup([a], [b], WithoutOwner(a)), tx);
  }

  /** The papers and the paper command of a generated move. */
  lemma MoveTxPapers(t: Tx, paper: PaperRef, newOwner: Party)
    requires PaperInputs(t) == [] && PaperOutputs(t) == [] && Select(t.commands, PaperCommands) == []
    ensures var tx := MoveTx(t, paper, newOwner);
            PaperInputs(tx) == [paper.state.paper] && PaperOutputs(tx) == [paper.state.paper.(owner := newOwner)] &&
            PaperCommand(tx) == Some(Command(CP(Move), [paper.state.paper.owner.owningKey]))
  {
    var tx := MoveTx(t, paper, newOwner);
    var a := paper.state.paper;
    var b := a.(owner := newOwner);
    var move := Command(CP(Move), [a.owner.owningKey]);
    InputStatesConcat(t.inputs, [paper]);
    assert InputStates([paper]) == [paper.state];
    PaperStatesOfConcat(InputStates(t.inputs), [paper.state]);
    PaperStatesOfOne(paper.state);
    assert PaperInputs(tx) == [a];
    PaperStatesOfConcat(t.outputs, [Paper(b)]);
    PaperStatesOfOne(Paper(b));
    assert PaperOutputs(tx) == [b];
    SelectConcat(t.commands, [move], PaperCommands);
    SelectOne(move, PaperCommands);
    assert PaperCommand(tx) == Some(move);
  }

  /** What `generateRedeem` adds after the cash spend: the paper as an input
      and a redeem command signed by its owner. */
  function RedeemTx(t: Tx, paper: PaperRef, spend: CashSpend): (r: Tx)
    ensures r.inputs == t.inputs + spend.inputs + [paper]
    ensures r.outputs == t.outputs + spend.outputs && r.timeWindow == t.timeWindow
    ensures r.commands == t.commands + [spend.command, Command(CP(Redeem), [paper.state.paper.owner.owningKey])]
  {
    var spent := AddSpend(t, spend);
    spent.(inputs := spent.inputs + [paper],
           commands := spent.commands + [Command(CP(Redeem), [paper.state.paper.owner.owningKey])])
  }

  /** `generateRedeem`: pay the face value, without its issuer, from the given
      coins to the owner, then consume the paper under a redeem command.
      Coins that cannot pay raise `InsufficientBalance` and change nothing. */
  method GenerateRedeem(tx: TransactionBuilder, paper: PaperRef, coins: seq<StateAndRef>, changeOwner: Party)
    returns (r: Outcome)
    modifies tx
    ensures var spend := GenerateSpend(coins, WithoutIssuer(paper.state.paper.faceValue), paper.state.paper.owner, changeOwner);
            (r == Pass <==> spend.Ok?) &&
            (spend.Ok? ==> tx.Contents() == RedeemTx(old(tx.Contents()), paper, spend.value)) &&
            (spend.Err? ==> r == Fail(InsufficientBalance) && tx.Contents() == old(tx.Contents()))
  {
    var p := paper.state.paper;
    var keys := tx.GenerateSpendInto(coins, WithoutIssuer(p.faceValue), p.owner, changeOwner);
    if keys.Err? {
      return Fail(keys.error);
    }
    tx.AddInputState(paper);
    tx.AddCommand(Command(CP(Redeem), [p.owner.owningKey]));
    r := Pass;
  }

  lemma RedeemTxCash(t: Tx, paper: PaperRef, spend: CashSpend, owner: Party)
    requires CashAmountsOf(t.outputs, owner) == []
    ensures SumCashBy(RedeemTx(t, paper, spend).outputs, owner) == SumCashBy(spend.outputs, owner)
  {
    CashAmountsOfConcat(t.outputs, spend.outputs, owner);
    assert [] + CashAmountsOf(spend.outputs, owner) == CashAmountsOf(spend.outputs, owner);
    assert CashAmountsOf(RedeemTx(t, paper, spend).outputs, owner) == CashAmountsOf(spend.outputs, owner);
  }

  lemma RedeemTxPapers(t: Tx, paper: PaperRef, spend: CashSpend)
    requires PaperInputs(t) == [] && PaperOutputs(t) == []
    requires PaperStatesOf(InputStates(spend.inputs)) == [] && PaperStatesOf(spend.outputs) == []
    ensures PaperInputs(RedeemTx(t, paper, spend)) == [paper.state.paper]
    ensures PaperOutputs(RedeemTx(t, paper, spend)) == []
  {
    InputStatesConcat(t.inputs + spend.inputs, [paper]);
    InputStatesConcat(t.inputs, spend.inputs);
    assert InputStates([paper]) == [paper.state];
    PaperStatesOfConcat(InputStates(t.inputs), InputStates(spend.inputs));
    PaperStatesOfConcat(InputStates(t.inputs) + InputStates(spend.inputs), [paper.state]);
    PaperStatesOfOne(paper.state);
    PaperStatesOfConcat(t.outputs, spend.outputs);
  }

  lemma RedeemTxCommand(t: Tx, paper: PaperRef, spend: CashSpend)
    requires Select(t.commands, PaperCommands) == [] && spend.command.value == CashMove
    ensures PaperCommand(RedeemTx(t, paper, spend)) == Some(Command(CP(Redeem), [paper.state.paper.owner.owningKey]))
  {
    var redeem := Command(CP(Redeem), [paper.state.paper.owner.owningKey]);
    SelectConcat(t.commands, [spend.command, redeem], PaperCommands);
    assert [spend.command, redeem] == [spend.command] + [redeem];
    SelectConcat([spend.command], [redeem], PaperCommands);
    SelectOne(spend.command, PaperCommands);
    SelectOne(redeem, PaperCommands);
  }

  /** The paper, the command and the cash to the owner of a generated redemption. */
  lemma GeneratedRedeemShape(t: Tx, paper: PaperRef, coins: seq<StateAndRef>, changeOwner: Party)
    requires var p := paper.state.paper;
             CanPay(coins, WithoutIssuer(p.faceValue)) && changeOwner != p.owner && CashAmountsOf(t.outputs, p.owner) == [] &&
             PaperInputs(t) == [] && PaperOutputs(t) == [] && Select(t.commands, PaperCommands) == []
    ensures var p := paper.state.paper;
            var tx := RedeemTx(t, paper, GenerateSpend(coins, WithoutIssuer(p.faceValue), p.owner, changeOwner).value);
            PaperInputs(tx) == [p] && PaperOutputs(tx) == [] &&
            PaperCommand(tx) == Some(Command(CP(Redeem), [p.owner.owningKey])) &&
            SumCashBy(tx.outputs, p.owner) == Ok(Amount(p.faceValue.quantity, coins[0].state.amount.token)) &&
            tx.timeWindow == t.timeWindow
  {
    var p := paper.state.paper;
    var spend := GenerateSpend(coins, WithoutIssuer(p.faceValue), p.owner, changeOwner).value;
    SpendPaysExactly(coins, WithoutIssuer(p.faceValue), p.owner, changeOwner);
    RedeemTxCash(t, paper, spend, p.owner);
    SpendHoldsNoPaper(coins, spend);
    RedeemTxPapers(t, paper, spend);
    RedeemTxCommand(t, paper, spend);
  }

  /** A transaction redeeming one paper is checked by the redemption rules for that paper. */
  lemma RedeemOfOnePaper(tx: Tx, p: State)
    requires PaperInputs(tx) == [p] && PaperOutputs(tx) == []
    requires PaperCommand(tx) == Some(Command(CP(Redeem), [p.owner.owningKey]))
    ensures Verify(tx) == CheckRedeem(InOutGroup([p], [], WithoutOwner(p)), tx.outputs, tx.timeWindow, [p.owner.owningKey])
  {
    VerifyUnfold(tx);
    GroupsOfOneInput(p);
    CheckGroupsOne(Redeem, [p.owner.owningKey], InOutGroup([p], [], WithoutOwner(p)), tx);
  }

  /** A generated redemption verifies when the coins are of the paper's own
      issued token, the change goes elsewhere, the transaction pays the owner
      nothing else, holds no other paper, and is timestamped at or after
      maturity. */
  lemma GeneratedRedeemVerifies(t: Tx, paper: PaperRef, coins: seq<StateAndRef>, changeOwner: Party)
    requires var p := paper.state.paper;
             CanPay(coins, WithoutIssuer(p.faceValue)) && coins[0].state.amount.token == p.faceValue.token &&
             changeOwner != p.owner && CashAmountsOf(t.outputs, p.owner) == [] &&
             PaperInputs(t) == [] && PaperOutputs(t) == [] && Select(t.commands, PaperCommands) == [] &&
             UntilTime(t.timeWindow).Some? && UntilTime(t.timeWindow).value >= p.maturityDate
    ensures var spend := GenerateSpend(coins, WithoutIssuer(paper.state.paper.faceValue), paper.state.paper.owner, changeOwner);
            Verify(RedeemTx(t, paper, spend.value)) == Pass
  {
    var p := paper.state.paper;
    var tx := RedeemTx(t, paper, GenerateSpend(coins, WithoutIssuer(p.faceValue), p.owner, changeOwner).value);
    GeneratedRedeemShape(t, paper, coins, changeOwner);
    RedeemOfOnePaper(tx, p);
  }

  /** Redeeming for coins of another issuer fails the face value rule: the
      face value is compared issuer included. */
  lemma RedeemWithOtherIssuerFails(t: Tx, paper: PaperRef, coins: seq<StateAndRef>, changeOwner: Party)
    requires var p := paper.state.paper;
             CanPay(coins, WithoutIssuer(p.faceValue)) && coins[0].state.amount.token != p.faceValue.token &&
             changeOwner != p.owner && CashAmountsOf(t.outputs, p.owner) == [] &&
             PaperInputs(t) == [] && PaperOutputs(t) == [] && Select(t.commands, PaperCommands) == [] &&
             UntilTime(t.timeWindow).Some? && UntilTime(t.timeWindow).value >= p.maturityDate
    ensures var spend := GenerateSpend(coins, WithoutIssuer(paper.state.paper.faceValue), paper.state.paper.owner, changeOwner);
            Verify(RedeemTx(t, paper, spend.value)) == Fail(Requirement(ReceivedFaceValue))
  {
    var p := paper.state.paper;
    var tx := RedeemTx(t, paper, GenerateSpend(coins, WithoutIssuer(p.faceValue), p.owner, changeOwner).value);
    GeneratedRedeemShape(t, paper, coins, changeOwner);
    RedeemOfOnePaper(tx, p);
  }

  /** The coins a spend consumes and the cash it produces are no paper. */
  lemma SpendHoldsNoPaper(coins: seq<StateAndRef>, spend: CashSpend)
    requires (forall i :: 0 <= i < |coins| ==> coins[i].state.Cash?) && spend.inputs == coins
    requires forall o :: o in spend.outputs ==> o.Cash?
    ensures PaperStatesOf(InputStates(spend.inputs)) == [] && PaperStatesOf(spend.outputs) == []
  {
    NoPaperIn(InputStates(spend.inputs));
    NoPaperIn(spend.outputs);
  }

  lemma NoPaperIn(states: seq<ContractState>)
    requires forall s :: s in states ==> !s.Paper?
    ensures PaperStatesOf(states) == []
  {
    if states != [] {
      assert states[0] in states;
      NoPaperIn(states[1..]);
    }
  }
}
